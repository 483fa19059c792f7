/**
 * What each command of `_irc_` does to the server, with the fields of the new state written out and the arguments read
 * off the words of the line.
 */
module IrcCommands {
  import opened Lists
  import opened Text
  import opened Tokenizer
  import opened IrcText
  import opened IrcState
  import opened IrcSteps
  import opened IrcInvariant
  import opened IrcPart

  // ---------------------------------------------------------------- the words of a line

  /** The line is from client `c`, and its first word is the command, with or without a slash. */
  predicate Issues<Id(==)>(w: World<Id>, fd: int, line: string, c: Id, command: string) {
    && fd in w.clients && w.clients[fd] == c
    && CommandParts(line) != [] && CommandParts(line)[0] in {command, "/" + command}
  }

  const COMMANDS: set<string> := {
    "CAP", "PASS", "NICK", "USER", "JOIN", "PRIVMSG", "LIST", "PART", "TOPIC", "KICK", "QUIT"
  }

  /** A first word is one command at most. */
  lemma SaysOne(parts: seq<string>, command: string, other: string)
    requires parts != [] && parts[0] in {command, "/" + command} && command in COMMANDS && other in COMMANDS
    ensures Says(parts, other) <==> other == command
  {
    assert command[0] != '/' && other[0] != '/';
    assert ("/" + command)[1..] == command && ("/" + other)[1..] == other;
  }

  lemma SaysNone(parts: seq<string>, command: string)
    requires parts != [] && parts[0] !in {command, "/" + command}
    ensures !Says(parts, command)
  {
  }

  /** Such a line says the command and no other. */
  lemma SaysIt<Id>(w: World<Id>, fd: int, line: string, c: Id, command: string)
    requires Issues(w, fd, line, c, command) && command in COMMANDS
    ensures var parts := CommandParts(line);
            && (Says(parts, "CAP") <==> command == "CAP") && (Says(parts, "PASS") <==> command == "PASS")
            && (Says(parts, "NICK") <==> command == "NICK") && (Says(parts, "USER") <==> command == "USER")
            && (Says(parts, "JOIN") <==> command == "JOIN") && (Says(parts, "PRIVMSG") <==> command == "PRIVMSG")
            && (Says(parts, "LIST") <==> command == "LIST") && (Says(parts, "PART") <==> command == "PART")
            && (Says(parts, "TOPIC") <==> command == "TOPIC") && (Says(parts, "KICK") <==> command == "KICK")
            && (Says(parts, "QUIT") <==> command == "QUIT")
  {
    hide CommandParts, Says;
    var parts := CommandParts(line);
    forall other | other in COMMANDS ensures Says(parts, other) <==> other == command {
      SaysOne(parts, command, other);
    }
  }

  /** A command in either case, followed by words, is read as that command and those words. */
  lemma ReadsCommand(word: string, rest: string)
    requires word != "" && ' ' !in word && '\0' !in word + rest && '\n' !in word + rest
    ensures CommandParts(word + " " + rest) == [Upper(word)] + SplitAll(rest, " ")
    ensures CommandParts(word) == [Upper(word)]
  {
    hide SplitAll, CutAt, Upper;
    ContainsChar(word, ' ');
    CharUnbordered(' ');
    FirstDelimiter(word, " ", rest);
    SplitParts(word + " " + rest, " ", word, rest);
    SplitWhole(word, " ");
  }

  // ---------------------------------------------------------------- the ladder

  /** PASS with the server's password lets the client in; nothing else does. */
  lemma PassAuthorizes<Id>(w: World<Id>, fd: int, line: string, closes: bool, c: Id)
    requires Issues(w, fd, line, c, "PASS")
    ensures var me, parts := Of(w.info, c), CommandParts(line);
            LineStep(w, fd, line, closes) ==
            if |parts| >= 2 && !me.auth && parts[1] == w.password then
              Some(w.(info := w.info[c := me.(auth := true)]))
            else Some(w)
  {
    hide CommandParts, Says;
    SaysIt(w, fd, line, c, "PASS");
  }

  /** NICK of an authorized client enters a nick that no entry of the table has, and keeps its older entries. */
  lemma NickEnters<Id>(w: World<Id>, fd: int, line: string, closes: bool, c: Id)
    requires Issues(w, fd, line, c, "NICK")
    ensures var me, parts := Of(w.info, c), CommandParts(line);
            LineStep(w, fd, line, closes) ==
            if me.auth && |parts| >= 2 && forall e <- w.nicks :: e.1 != parts[1] then
              Some(w.(info := w.info[c := me.(nick := parts[1], hasNick := true)],
                      nicks := w.nicks + [(me.fd, parts[1])]))
            else Some(w)
  {
    hide CommandParts, Says;
    SaysIt(w, fd, line, c, "NICK");
    var parts := CommandParts(line);
    if |parts| >= 2 {
      TakenIff(w.nicks, parts[1]);
    }
  }

  lemma TakenIff(nicks: seq<(int, string)>, nick: string)
    ensures NickTaken(nicks, nick) <==> !forall e <- nicks :: e.1 != nick
  {
    if i :| 0 <= i < |nicks| && nicks[i].1 == nick {
      assert nicks[i] in nicks;
    }
  }

  /** USER completes the registration once, for a client with a nick. */
  lemma UserCompletes<Id>(w: World<Id>, fd: int, line: string, closes: bool, c: Id)
    requires Issues(w, fd, line, c, "USER")
    ensures var me, parts := Of(w.info, c), CommandParts(line);
            LineStep(w, fd, line, closes) ==
            if me.hasNick && |parts| >= 4 && me.user == "" then
              Some(w.(info := w.info[c := me.(user := parts[1], ip := parts[2], loged := true,
                                              realName := StripColon(Join(parts[3..], " ")))]))
            else Some(w)
  {
    hide CommandParts, Says, Join;
    SaysIt(w, fd, line, c, "USER");
  }

  /** Before that, no other command does anything. */
  lemma OthersWait<Id>(w: World<Id>, fd: int, line: string, closes: bool)
    requires fd in w.clients && !(Of(w.info, w.clients[fd]).auth && Of(w.info, w.clients[fd]).loged)
    requires CommandParts(line) != [] && CommandParts(line)[0] !in {"PASS", "/PASS", "NICK", "/NICK", "USER", "/USER"}
    ensures LineStep(w, fd, line, closes) == Some(w)
  {
    hide CommandParts, PassStep, NickStep, UserStep, JoinStep, PartStep, TopicStep, KickStep, Targets, Says;
    assert "/" + "PASS" == "/PASS" && "/" + "NICK" == "/NICK" && "/" + "USER" == "/USER";
    SaysNone(CommandParts(line), "PASS");
    SaysNone(CommandParts(line), "NICK");
    SaysNone(CommandParts(line), "USER");
  }

  // ---------------------------------------------------------------- channels

  /** The line is the command of a client that has registered. */
  predicate Orders<Id(==)>(w: World<Id>, fd: int, line: string, c: Id, command: string) {
    Issues(w, fd, line, c, command) && Of(w.info, c).auth && Of(w.info, c).loged
  }

  /** The third word, if there is one. */
  function KeyOf(parts: seq<string>): string {
    if |parts| >= 3 then parts[2] else ""
  }

  lemma JoinDoes<Id>(w: World<Id>, fd: int, line: string, closes: bool, c: Id)
    requires Orders(w, fd, line, c, "JOIN")
    ensures LineStep(w, fd, line, closes) == Some(JoinStep(w, c, CommandParts(line)))
  {
    hide CommandParts, Says, JoinStep;
    SaysIt(w, fd, line, c, "JOIN");
  }

  /** A JOIN of a new name opens the channel: keyed by the third word, led by the sender, its only member. */
  lemma JoinOpens<Id>(w: World<Id>, fd: int, line: string, closes: bool, c: Id)
    requires Orders(w, fd, line, c, "JOIN") && |CommandParts(line)| >= 2
    requires var name := CommandParts(line)[1]; |name| >= 2 && name[0] == '#' && name !in w.channels
    ensures var parts := CommandParts(line);
            LineStep(w, fd, line, closes) == Some(w.(channels :=
              w.channels[parts[1] := Chan(parts[1], KeyOf(parts), "", Of(w.info, c).nick, [c])]))
  {
    hide CommandParts, LineStep;
    JoinDoes(w, fd, line, closes, c);
  }

  /**
   * A JOIN makes the sender the last member of the channel if and only if the name is well formed and there is no
   * such channel, or the sender is not on it, gives its key and finds fewer than ten members. Otherwise it changes
   * nothing.
   */
  lemma JoinAdmitsIff<Id>(w: World<Id>, fd: int, line: string, closes: bool, c: Id, w': World<Id>)
    requires Orders(w, fd, line, c, "JOIN") && LineStep(w, fd, line, closes) == Some(w')
    ensures var parts := CommandParts(line);
            var name := if |parts| >= 2 then parts[1] else "";
            var before := if name in w.channels then w.channels[name].members else [];
            (name in w'.channels && w'.channels[name].members == before + [c])
            <==> (&& |name| >= 2 && name[0] == '#'
                  && (name in w.channels ==>
                        c !in before && w.channels[name].key == KeyOf(parts) && |before| < 10))
    ensures var parts := CommandParts(line);
            w' == w ||
            (|parts| >= 2 && parts[1] in w'.channels
             && w' == w.(channels := w.channels[parts[1] := w'.channels[parts[1]]])
             && (parts[1] in w.channels ==>
                   w'.channels[parts[1]] == w.channels[parts[1]].(members := w.channels[parts[1]].members + [c])))
  {
    hide CommandParts, LineStep;
    JoinDoes(w, fd, line, closes, c);
    assert [] + [c] == [c];
  }

  lemma PartDoes<Id>(w: World<Id>, fd: int, line: string, closes: bool, c: Id)
    requires Orders(w, fd, line, c, "PART")
    ensures LineStep(w, fd, line, closes) == Some(PartStep(w, c, CommandParts(line)))
  {
    hide CommandParts, Says, PartStep;
    SaysIt(w, fd, line, c, "PART");
  }

  /**
   * After a PART the sender is on none of the channels between the commas of the second word: an emptied one is gone,
   * on the others the rest keep their order, and the rank of a leader that leaves passes to the front. Nothing else
   * changes.
   */
  lemma PartLeaves<Id>(w: World<Id>, fd: int, line: string, closes: bool, c: Id, w': World<Id>, key: string)
    requires Inv(w) && Orders(w, fd, line, c, "PART") && LineStep(w, fd, line, closes) == Some(w')
    ensures w' == w.(channels := w'.channels) && w'.channels.Keys <= w.channels.Keys
    ensures var listed := |CommandParts(line)| >= 2 && key in SplitAll(CommandParts(line)[1], ",");
            key in w.channels ==>
              var ch := w.channels[key];
              if !listed || c !in ch.members then key in w'.channels && w'.channels[key] == ch
              else if ch.members == [c] then key !in w'.channels
              else
                var left := RemoveFirst(ch.members, c);
                && left != [] && c !in left && key in w'.channels
                && w'.channels[key] == ch.(members := left, op := if ch.op == Of(w.info, c).nick
                                                                  then Of(w.info, left[0]).nick else ch.op)
  {
    hide CommandParts, LineStep, SplitAll, Departed, PartAll;
    PartDoes(w, fd, line, closes, c);
    var parts := CommandParts(line);
    if |parts| >= 2 {
      var names := SplitAll(parts[1], ",");
      PartAllIs(w.info, w.channels, names, c);
      PartAddsNone(w.info, w.channels, names, c);
      assert key in Names(names) <==> key in names;
      if key in w.channels {
        DepartedAt(w, Names(names), c, key);
      }
    }
  }

  lemma DepartedAt<Id>(w: World<Id>, names: set<string>, c: Id, key: string)
    requires Inv(w) && key in w.channels
    ensures var ch, after := w.channels[key], Departed(w.info, w.channels, names, c);
            if key !in names || c !in ch.members then key in after && after[key] == ch
            else if ch.members == [c] then key !in after
            else
              var left := RemoveFirst(ch.members, c);
              && left != [] && c !in left && key in after
              && after[key] == ch.(members := left, op := if ch.op == Of(w.info, c).nick
                                                          then Of(w.info, left[0]).nick else ch.op)
  {
    assert ChanOk(w.info, key, w.channels[key]);
    RemoveFirstDistinct(w.channels[key].members, c);
  }

  /** A TOPIC of the operator sets the words from the third on. */
  lemma TopicSets<Id>(w: World<Id>, fd: int, line: string, closes: bool, c: Id)
    requires Orders(w, fd, line, c, "TOPIC")
    ensures var parts := CommandParts(line);
            LineStep(w, fd, line, closes) ==
            if |parts| > 2 && parts[1] in w.channels && w.channels[parts[1]].op == Of(w.info, c).nick then
              Some(w.(channels := w.channels[parts[1] := w.channels[parts[1]].(topic := Join(parts[2..], " "))]))
            else Some(w)
  {
    hide CommandParts, Says, Join;
    SaysIt(w, fd, line, c, "TOPIC");
  }

  lemma KickDoes<Id>(w: World<Id>, fd: int, line: string, closes: bool, c: Id)
    requires Orders(w, fd, line, c, "KICK")
    ensures LineStep(w, fd, line, closes) == KickStep(w, c, CommandParts(line))
  {
    hide CommandParts, KickStep, Says;
    SaysIt(w, fd, line, c, "KICK");
  }

  /**
   * A KICK of the operator takes the client that has the nick off the channel, if it is on it; where it is the last
   * member, the KICK is not survived.
   */
  lemma KickRemoves<Id>(w: World<Id>, fd: int, line: string, closes: bool, c: Id)
    requires Orders(w, fd, line, c, "KICK")
    ensures var parts := CommandParts(line);
            LineStep(w, fd, line, closes) ==
            if |parts| < 3 || parts[1] !in w.channels || w.channels[parts[1]].op != Of(w.info, c).nick then Some(w)
            else
              match ByNick(w.info, w.clients, parts[2])
              case None => Some(w)
              case Some(t) =>
                var ch := w.channels[parts[1]];
                if t !in ch.members then Some(w)
                else if |ch.members| == 1 then None
                else
                  var left := RemoveFirst(ch.members, t);
                  var op := if ch.op == Of(w.info, t).nick then Of(w.info, left[0]).nick else ch.op;
                  Some(w.(channels := w.channels[parts[1] := ch.(members := left, op := op)]))
  {
    hide CommandParts, LineStep, ByNick, RemoveFirst;
    KickDoes(w, fd, line, closes, c);
  }

  // ---------------------------------------------------------------- leaving and coming

  /** A QUIT closes the connection, where `close` succeeds: off the table, off the poll vector, one nick entry less. */
  lemma QuitCloses<Id>(w: World<Id>, fd: int, line: string, closes: bool, c: Id)
    requires Orders(w, fd, line, c, "QUIT")
    ensures var own := Of(w.info, c).fd;
            LineStep(w, fd, line, closes) ==
            if closes then Some(w.(clients := w.clients - {own}, fds := Without(w.fds, own),
                                   nicks := DropEntry(w.nicks, own)))
            else Some(w)
  {
    hide CommandParts, Says, Without, DropEntry;
    SaysIt(w, fd, line, c, "QUIT");
  }

  /** So does a connection that ends. */
  lemma HangupCloses<Id>(w: World<Id>, fd: int, closes: bool)
    ensures Step(w, Hangup(fd, closes)) ==
            if closes then Some(w.(clients := w.clients - {fd}, fds := Without(w.fds, fd),
                                   nicks := DropEntry(w.nicks, fd)))
            else Some(w)
  {
    hide Without, DropEntry;
  }

  /** The other descriptors stay in the poll vector, in their order. */
  lemma {:induction false} WithoutInOrder(fds: seq<int>, x: int, fd: int)
    ensures Without([], fd) == []
    ensures Without(fds + [x], fd) == Without(fds, fd) + if x == fd then [] else [x]
  {
    if fds == [] {
      assert fds + [x] == [x] && [x][1..] == [];
    } else {
      assert (fds + [x])[1..] == fds[1..] + [x];
      WithoutInOrder(fds[1..], x, fd);
    }
  }

  /** A client that connects has no nick, no user name and no rights, and stands at the end of the poll vector. */
  lemma AcceptAdds<Id>(w: World<Id>, c: Id, fd: int, ip: string)
    ensures Step(w, Accept(c, fd, ip))
         == Some(w.(info := w.info[c := ClientInfo(fd, ip, "", "", "", false, false, false)],
                    clients := w.clients[fd := c], fds := w.fds + [fd]))
  {
  }

  // ---------------------------------------------------------------- lines that change nothing

  /** A PRIVMSG changes nothing, and is survived where every receiver is found. */
  lemma PrivmsgKeeps<Id>(w: World<Id>, fd: int, line: string, closes: bool, c: Id)
    requires Orders(w, fd, line, c, "PRIVMSG")
    ensures LineStep(w, fd, line, closes) == if Targets(w, c, CommandParts(line)).Some? then Some(w) else None
  {
    hide CommandParts, Says, Targets;
    SaysIt(w, fd, line, c, "PRIVMSG");
  }

  /** Neither does a CAP, a LIST, an unknown command or an empty line. */
  lemma OthersKeep<Id>(w: World<Id>, fd: int, line: string, closes: bool)
    requires fd in w.clients
    requires var parts := CommandParts(line);
             parts == [] || forall command <- COMMANDS - {"CAP", "LIST"} :: !Says(parts, command)
    ensures LineStep(w, fd, line, closes) == Some(w)
  {
    hide CommandParts, Says;
    assert {"PASS", "NICK", "USER", "JOIN", "PRIVMSG", "PART", "TOPIC", "KICK", "QUIT"} <= COMMANDS - {"CAP", "LIST"};
  }
}
