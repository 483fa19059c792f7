/** What PRIVMSG and QUIT of `_irc_` put on the wire: letters, which are pairs of a descriptor and a text. */
module IrcLetters {
  import opened Lists
  import opened Text
  import opened Tokenizer
  import opened IrcText
  import opened IrcState
  import opened IrcSteps
  import opened IrcInvariant
  import opened IrcSuccession
  import opened IrcTalk
  import opened IrcCommands
  import Bot

  /** The same text to each client, in order. */
  function Mail<Id(==)>(info: map<Id, ClientInfo>, to: seq<Id>, text: string): (letters: seq<(int, string)>)
    ensures |letters| == |to| && forall i :: 0 <= i < |to| ==> letters[i] == (Of(info, to[i]).fd, text)
  {
    seq(|to|, i requires 0 <= i < |to| => (Of(info, to[i]).fd, text))
  }

  /** `Client::getPrefix`. */
  function Prefix(me: ClientInfo): string {
    me.nick + "!" + (if me.user == "" then "*" else me.user) + "@" + if me.ip == "" then "*" else me.ip
  }

  /** The text that a PRIVMSG delivers: everyone's but the bot's own goes through the bot. */
  function Spoken(nick: string, botNick: string, parts: seq<string>): string
    requires |parts| >= 3
  {
    var text := StripColon(Join(parts[2..], " "));
    if nick == botNick then text else Bot.Censor(Bot.AfterBang(nick + "!" + text), Bot.BLACKLIST)
  }

  /** The letters of a PRIVMSG. */
  ghost function Spread<Id>(w: World<Id>, c: Id, parts: seq<string>): seq<(int, string)> {
    var nick := Of(w.info, c).nick;
    if |parts| < 3 || Targets(w, c, parts).None? then []
    else Mail(w.info, Targets(w, c, parts).value,
              ":" + nick + " PRIVMSG " + parts[1] + " :" + Spoken(nick, w.botNick, parts) + CRLF)
  }

  // ---------------------------------------------------------------- a farewell

  ghost predicate IsLeast(s: set<int>, l: int) {
    l in s && forall x <- s :: l <= x
  }

  /** The keys of an ordered map as a loop over it meets them. */
  ghost function InOrder(s: set<int>): seq<int>
    decreases |s|
  {
    if l :| IsLeast(s, l) then [l] + InOrder(s - {l}) else []
  }

  /** A strictly ascending sequence. */
  predicate Ascending(s: seq<int>) {
    forall i, j :: 0 <= i < j < |s| ==> s[i] < s[j]
  }

  lemma {:induction false} InOrderIs(s: set<int>, told: seq<int>)
    requires Ascending(told) && forall x :: x in told <==> x in s
    ensures InOrder(s) == told
    decreases |told|
  {
    if told == [] {
      assert forall x :: x in s ==> x in told;
    } else {
      var l, rest := told[0], told[1..];
      forall x | x in told ensures l <= x && (x in rest <==> x != l) {
        var i :| 0 <= i < |told| && told[i] == x;
        assert i > 0 ==> rest[i - 1] == x;
      }
      assert IsLeast(s, l);
      assert forall m :: IsLeast(s, m) ==> m == l;
      InOrderIs(s - {l}, rest);
    }
  }

  lemma {:induction false} InOrderHas(s: set<int>)
    ensures Ascending(InOrder(s)) && forall x :: x in InOrder(s) <==> x in s
    decreases |s|
  {
    if x :| x in s {
      var low := Least(s, x);
      assert IsLeast(s, low);
      assert forall l :: IsLeast(s, l) ==> l == low;
      assert InOrder(s) == [low] + InOrder(s - {low});
      InOrderHas(s - {low});
      var rest := InOrder(s - {low});
      forall j | 0 <= j < |rest| ensures low < rest[j] {
        assert rest[j] in rest;
      }
    }
  }

  /** The entries of the client map that the loop of `quit` picks. */
  function Hearers<Id(==)>(w: World<Id>, c: Id, botSocket: int): set<int> {
    set fd | fd in w.clients && Of(w.info, w.clients[fd]).fd != Of(w.info, c).fd && Of(w.info, c).fd != botSocket
  }

  /** The letters of a QUIT. */
  ghost function Farewells<Id>(w: World<Id>, c: Id, parts: seq<string>, botSocket: int): seq<(int, string)>
    requires parts != []
  {
    var told := InOrder(Hearers(w, c, botSocket));
    var text := " :" + Prefix(Of(w.info, c)) + " QUIT :Quit: " + Join(parts[1..], " ") + CRLF;
    seq(|told|, i requires 0 <= i < |told| => (FdAt(w, told[i]), text))
  }

  function FdAt<Id(==)>(w: World<Id>, key: int): int {
    if key in w.clients then Of(w.info, w.clients[key]).fd else key
  }

  // ---------------------------------------------------------------- one line, one text

  /** The letters of a command; only a registered client sends any. */
  ghost function LettersBy<Id>(w: World<Id>, c: Id, parts: seq<string>, botSocket: int): seq<(int, string)> {
    if !Of(w.info, c).auth || !Of(w.info, c).loged then []
    else if Says(parts, "PRIVMSG") then Spread(w, c, parts)
    else if Says(parts, "QUIT") then Farewells(w, c, parts, botSocket)
    else []
  }

  /** The letters of one line. */
  ghost function LettersOf<Id>(w: World<Id>, fd: int, line: string, botSocket: int): seq<(int, string)> {
    if fd !in w.clients then [] else LettersBy(w, w.clients[fd], CommandParts(line), botSocket)
  }

  /** The letters of several lines, each in the state that the lines before it left. */
  ghost function RunLetters<Id>(w: World<Id>, fd: int, lines: seq<string>, closes: bool, botSocket: int)
    : seq<(int, string)>
    decreases |lines|
  {
    if lines == [] then []
    else
      LettersOf(w, fd, lines[0], botSocket) +
      match LineStep(w, fd, lines[0], closes)
      case None => []
      case Some(w') => RunLetters(w', fd, lines[1..], closes, botSocket)
  }

  lemma LettersNone<Id>(w: World<Id>, fd: int, lines: seq<string>, closes: bool, botSocket: int,
                        sent: seq<(int, string)>)
    requires lines == []
    ensures sent + RunLetters(w, fd, lines, closes, botSocket) == sent
  {
  }

  lemma LettersNext<Id>(w: World<Id>, fd: int, lines: seq<string>, closes: bool, botSocket: int,
                        sent: seq<(int, string)>)
    requires lines != [] && LineStep(w, fd, lines[0], closes).Some?
    ensures sent + RunLetters(w, fd, lines, closes, botSocket)
         == sent + LettersOf(w, fd, lines[0], botSocket)
            + RunLetters(LineStep(w, fd, lines[0], closes).value, fd, lines[1..], closes, botSocket)
  {
    hide LettersOf, LineStep;
  }

  /** A command that is none of the two sends no letters. */
  lemma SilentCommand<Id>(w: World<Id>, c: Id, parts: seq<string>, botSocket: int, command: string)
    requires Says(parts, command) && command in COMMANDS - {"PRIVMSG", "QUIT"}
    ensures LettersBy(w, c, parts, botSocket) == []
  {
    hide Says, Spread, Farewells;
    SaysMeans(parts, command);
    SaysOne(parts, command, "PRIVMSG");
    SaysOne(parts, command, "QUIT");
  }

  /** Whatever a registered client says, its letters are those of the branch that the dispatcher takes. */
  lemma LettersChosen<Id>(w: World<Id>, c: Id, parts: seq<string>, botSocket: int)
    requires parts != []
    ensures Says(parts, "CAP") || Says(parts, "PASS") || Says(parts, "NICK") || Says(parts, "USER") ==>
              LettersBy(w, c, parts, botSocket) == []
    ensures Says(parts, "JOIN") || Says(parts, "LIST") || Says(parts, "PART") || Says(parts, "TOPIC") ==>
              LettersBy(w, c, parts, botSocket) == []
    ensures Says(parts, "KICK") ==> LettersBy(w, c, parts, botSocket) == []
    ensures !Says(parts, "PRIVMSG") && !Says(parts, "QUIT") ==> LettersBy(w, c, parts, botSocket) == []
    ensures !(Of(w.info, c).auth && Of(w.info, c).loged) ==> LettersBy(w, c, parts, botSocket) == []
    ensures Of(w.info, c).auth && Of(w.info, c).loged && Says(parts, "PRIVMSG") ==>
              LettersBy(w, c, parts, botSocket) == Spread(w, c, parts)
    ensures Of(w.info, c).auth && Of(w.info, c).loged && Says(parts, "QUIT") && !Says(parts, "PRIVMSG") ==>
              LettersBy(w, c, parts, botSocket) == Farewells(w, c, parts, botSocket)
  {
    hide Says, Spread, Farewells;
    forall command | command in COMMANDS - {"PRIVMSG", "QUIT"} && Says(parts, command)
      ensures LettersBy(w, c, parts, botSocket) == []
    {
      SilentCommand(w, c, parts, botSocket, command);
    }
  }

  lemma NoParts<Id>(w: World<Id>, c: Id, botSocket: int)
    ensures LettersBy(w, c, [], botSocket) == []
  {
    hide Spread, Farewells;
  }

  lemma SpreadIs<Id>(w: World<Id>, c: Id, parts: seq<string>, targets: seq<Id>)
    requires Targets(w, c, parts) == Some(targets)
    ensures Spread(w, c, parts) == if |parts| < 3 then []
                                   else Mail(w.info, targets, ":" + Of(w.info, c).nick + " PRIVMSG " + parts[1] + " :"
                                                              + Spoken(Of(w.info, c).nick, w.botNick, parts) + CRLF)
  {
    hide Targets, Spoken;
  }

  /** The letters that the loop of `quit` hands over, in terms of the state. */
  lemma FarewellsAre<Id>(w: World<Id>, c: Id, parts: seq<string>, botSocket: int, told: seq<int>,
                         sent: seq<(int, string)>)
    requires parts != [] && InOrder(Hearers(w, c, botSocket)) == told && |sent| == |told|
    requires forall i :: 0 <= i < |told| ==>
               sent[i] == (FdAt(w, told[i]),
                           " :" + Prefix(Of(w.info, c)) + " QUIT :Quit: " + Join(parts[1..], " ") + CRLF)
    ensures sent == Farewells(w, c, parts, botSocket)
  {
    hide InOrder, Hearers, FdAt, Prefix, Join;
  }

  lemma SaysMeans(parts: seq<string>, command: string)
    requires Says(parts, command)
    ensures parts != [] && parts[0] in {command, "/" + command}
  {
  }

  // ---------------------------------------------------------------- what the letters are

  /** A PRIVMSG to a nick goes to the client with the lowest descriptor that has it, in the words of the line. */
  lemma PrivateLetter<Id>(w: World<Id>, fd: int, line: string, botSocket: int, c: Id, to: int)
    requires Orders(w, fd, line, c, "PRIVMSG") && |CommandParts(line)| >= 3
    requires var target := CommandParts(line)[1];
             (target == "" || target[0] != '#') && IsLowest(w.info, w.clients, target, to)
    ensures var nick, parts := Of(w.info, c).nick, CommandParts(line);
            LettersOf(w, fd, line, botSocket) == [(Of(w.info, w.clients[to]).fd,
              ":" + nick + " PRIVMSG " + parts[1] + " :" + Spoken(nick, w.botNick, parts) + "\r\n")]
  {
    hide CommandParts, Spoken, Says, ByNick;
    SaysIt(w, fd, line, c, "PRIVMSG");
    ByNickIs(w.info, w.clients, CommandParts(line)[1], to);
  }

  /**
   * A PRIVMSG of a member to its channel goes, while all members are connected and can be looked up, to each other
   * member but the bot, in the order of the list.
   */
  lemma ChannelLetters<Id>(w: World<Id>, fd: int, line: string, botSocket: int, c: Id)
    requires Inv(w) && Present(w) && Orders(w, fd, line, c, "PRIVMSG") && |CommandParts(line)| >= 3
    requires var name := CommandParts(line)[1];
             && name in w.channels && name != "" && name[0] == '#' && c in w.channels[name].members
             && (w.botNick == "" || forall m <- w.channels[name].members ::
                   Of(w.info, m).nick != "" || !NicklessBelow(w, Of(w.info, m).fd))
    ensures var nick, parts := Of(w.info, c).nick, CommandParts(line);
            var others, sent := OtherMembers(w, c, w.channels[parts[1]].members), LettersOf(w, fd, line, botSocket);
            && |sent| == |others|
            && forall i :: 0 <= i < |sent| ==>
                 sent[i] == (Of(w.info, others[i]).fd,
                             ":" + nick + " PRIVMSG " + parts[1] + " :" + Spoken(nick, w.botNick, parts) + "\r\n")
  {
    hide CommandParts, Spoken, Says, Inv, Present, NicklessBelow, Targets;
    SaysIt(w, fd, line, c, "PRIVMSG");
    ChannelAudience(w, c, CommandParts(line));
  }

  /** A QUIT sends its words behind the prefix to every other connected client exactly once; the bot's sends nothing. */
  lemma QuitLetters<Id>(w: World<Id>, fd: int, line: string, botSocket: int, c: Id) returns (told: seq<int>)
    requires Inv(w) && Orders(w, fd, line, c, "QUIT")
    ensures forall i, j :: 0 <= i < j < |told| ==> told[i] < told[j]
    ensures forall to :: to in told <==> to in w.clients && to != fd && fd != botSocket
    ensures var sent, me := LettersOf(w, fd, line, botSocket), Of(w.info, c);
            var user, ip := if me.user == "" then "*" else me.user, if me.ip == "" then "*" else me.ip;
            && |sent| == |told|
            && forall i :: 0 <= i < |sent| ==>
                 sent[i] == (told[i], " :" + me.nick + "!" + user + "@" + ip + " QUIT :Quit: "
                                      + Join(CommandParts(line)[1..], " ") + "\r\n")
  {
    hide CommandParts, Says, Join, Inv, InOrder, Farewells, Hearers;
    var parts := CommandParts(line);
    told := InOrder(Hearers(w, c, botSocket));
    SaysIt(w, fd, line, c, "QUIT");
    InOrderHas(Hearers(w, c, botSocket));
    ClientsKnown(w);
    HearersAre(w, fd, c, botSocket);
    FarewellFds(w, c, parts, botSocket);
    assert LettersOf(w, fd, line, botSocket) == Farewells(w, c, parts, botSocket);
    var me := Of(w.info, c);
    var user, ip := if me.user == "" then "*" else me.user, if me.ip == "" then "*" else me.ip;
    QuitText(me.nick, user, ip, Join(parts[1..], " "));
    forall k | 0 <= k < |told|
      ensures Farewells(w, c, parts, botSocket)[k].1
           == " :" + Prefix(Of(w.info, c)) + " QUIT :Quit: " + Join(parts[1..], " ") + CRLF
    {
      FarewellText(w, c, parts, botSocket, k);
    }
  }

  lemma QuitText(nick: string, user: string, ip: string, msg: string)
    ensures " :" + (nick + "!" + user + "@" + ip) + " QUIT :Quit: " + msg + CRLF
         == " :" + nick + "!" + user + "@" + ip + " QUIT :Quit: " + msg + "\r\n"
  {
    assert " :" + (nick + "!" + user + "@" + ip) == " :" + nick + "!" + user + "@" + ip;
  }

  lemma ClientsKnown<Id>(w: World<Id>)
    requires Inv(w)
    ensures ClientsOk(w.info, w.clients)
  {
  }

  lemma FarewellText<Id>(w: World<Id>, c: Id, parts: seq<string>, botSocket: int, k: nat)
    requires parts != [] && k < |Farewells(w, c, parts, botSocket)|
    ensures Farewells(w, c, parts, botSocket)[k].1
         == " :" + Prefix(Of(w.info, c)) + " QUIT :Quit: " + Join(parts[1..], " ") + CRLF
  {
    hide InOrder, Join, Prefix, Hearers;
  }

  lemma HearersAre<Id>(w: World<Id>, fd: int, c: Id, botSocket: int)
    requires ClientsOk(w.info, w.clients) && fd in w.clients && w.clients[fd] == c
    ensures Hearers(w, c, botSocket) == set to | to in w.clients && to != fd && fd != botSocket
    ensures forall key <- w.clients :: FdAt(w, key) == key
  {
  }

  lemma FarewellFds<Id>(w: World<Id>, c: Id, parts: seq<string>, botSocket: int)
    requires parts != [] && forall key <- w.clients :: FdAt(w, key) == key
    ensures var told, sent := InOrder(Hearers(w, c, botSocket)), Farewells(w, c, parts, botSocket);
            |sent| == |told| && forall i :: 0 <= i < |sent| ==> sent[i].0 == told[i]
  {
    hide InOrder, Join, FdAt;
    InOrderHas(Hearers(w, c, botSocket));
    var told := InOrder(Hearers(w, c, botSocket));
    forall i | 0 <= i < |told| ensures told[i] in w.clients {
      assert told[i] in told;
    }
  }
}
