/** What every reachable state of the `_irc_` server satisfies: its separate tables agree. */
module IrcInvariant {
  import opened Lists
  import opened Text
  import opened Tokenizer
  import opened IrcText
  import opened IrcState
  import opened IrcSteps

  /** The client map leads to records with the descriptor it is keyed by. */
  ghost predicate ClientsOk<Id>(info: map<Id, ClientInfo>, clients: map<int, Id>) {
    forall fd <- clients :: clients[fd] in info && info[clients[fd]].fd == fd
  }

  /** The registration ladder: PASS before NICK before USER. */
  predicate Climbed(i: ClientInfo) {
    (i.loged ==> i.hasNick) && (if i.hasNick then i.auth else i.nick == "")
  }

  ghost predicate LadderOk<Id>(info: map<Id, ClientInfo>) {
    forall c <- info :: Climbed(info[c])
  }

  ghost predicate NicksDistinct(nicks: seq<(int, string)>) {
    forall i, j :: 0 <= i < j < |nicks| ==> nicks[i].1 != nicks[j].1
  }

  /** Registered nicks are pairwise distinct, and each connected client with a nick has its entry. */
  ghost predicate NicksOk<Id>(info: map<Id, ClientInfo>, clients: map<int, Id>, nicks: seq<(int, string)>) {
    && NicksDistinct(nicks)
    && forall fd <- clients :: Of(info, clients[fd]).hasNick ==> (fd, Of(info, clients[fd]).nick) in nicks
  }

  ghost predicate ChanOk<Id>(info: map<Id, ClientInfo>, key: string, ch: Chan<Id>) {
    && ch.name == key && Distinct(ch.members) && 1 <= |ch.members| <= USER_LIMIT
    && forall c <- ch.members :: c in info && info[c].loged
  }

  ghost predicate ChannelsOk<Id>(info: map<Id, ClientInfo>, channels: map<string, Chan<Id>>) {
    forall key <- channels :: ChanOk(info, key, channels[key])
  }

  /** The poll set is the listening socket, first, and the connected clients, each once. */
  ghost predicate PollSet(listener: int, clients: set<int>, fds: seq<int>) {
    && listener !in clients && Distinct(fds) && fds != [] && fds[0] == listener
    && forall fd :: fd in fds <==> fd == listener || fd in clients
  }

  ghost predicate PollOk<Id>(listener: int, clients: map<int, Id>, fds: seq<int>) {
    PollSet(listener, clients.Keys, fds)
  }

  ghost predicate Inv<Id>(w: World<Id>) {
    && ClientsOk(w.info, w.clients) && LadderOk(w.info) && NicksOk(w.info, w.clients, w.nicks)
    && ChannelsOk(w.info, w.channels) && PollOk(w.listener, w.clients, w.fds)
  }

  /** Hence no two connected clients with a nick share it, whatever stale entries the nick table holds. */
  lemma LiveNicksUnique<Id>(w: World<Id>, a: int, b: int)
    requires Inv(w) && a in w.clients && b in w.clients && a != b
    requires Of(w.info, w.clients[a]).hasNick && Of(w.info, w.clients[b]).hasNick
    ensures Of(w.info, w.clients[a]).nick != Of(w.info, w.clients[b]).nick
  {
    var nick := Of(w.info, w.clients[a]).nick;
    var i :| 0 <= i < |w.nicks| && w.nicks[i] == (a, nick);
    var j :| 0 <= j < |w.nicks| && w.nicks[j] == (b, Of(w.info, w.clients[b]).nick);
    assert i != j;
  }

  // ---------------------------------------------------------------- tables

  lemma {:induction false} DropEntryDistinct(nicks: seq<(int, string)>, fd: int)
    requires NicksDistinct(nicks)
    ensures NicksDistinct(DropEntry(nicks, fd))
  {
    if nicks != [] && nicks[0].0 != fd {
      var rest := DropEntry(nicks[1..], fd);
      DropEntryDistinct(nicks[1..], fd);
      forall j | 0 <= j < |rest| ensures nicks[0].1 != rest[j].1 {
        assert rest[j] in nicks[1..];
      }
      assert DropEntry(nicks, fd) == [nicks[0]] + rest;
    }
  }

  lemma {:induction false} WithoutDistinct(fds: seq<int>, fd: int)
    requires Distinct(fds)
    ensures Distinct(Without(fds, fd))
  {
    if fds != [] {
      var rest := Without(fds[1..], fd);
      WithoutDistinct(fds[1..], fd);
      forall j | 0 <= j < |rest| ensures fds[0] != rest[j] {
        assert rest[j] in fds[1..];
      }
      assert Without(fds, fd) == (if fds[0] == fd then [] else [fds[0]]) + rest;
    }
  }

  lemma CloseInv<Id>(w: World<Id>, fd: int)
    requires Inv(w) && fd != w.listener
    ensures Inv(Close(w, fd))
  {
    hide ChannelsOk, LadderOk, NicksDistinct, Distinct;
    DropEntryDistinct(w.nicks, fd);
    WithoutDistinct(w.fds, fd);
  }

  lemma AcceptInv<Id>(w: World<Id>, c: Id, fd: int, ip: string)
    requires Inv(w) && c !in w.info && fd !in w.clients && fd != w.listener
    ensures Inv(w.(info := w.info[c := Newcomer(fd, ip)], clients := w.clients[fd := c], fds := w.fds + [fd]))
  {
    hide ChanOk, ChannelsOk, NicksDistinct;
    ChannelsKept(w, c, Newcomer(fd, ip));
  }

  /** Changing a record keeps the channels in order as long as no login is lost. */
  lemma ChannelsKept<Id>(w: World<Id>, c: Id, i: ClientInfo)
    requires ChannelsOk(w.info, w.channels) && (c in w.info && w.info[c].loged ==> i.loged)
    ensures ChannelsOk(w.info[c := i], w.channels)
  {
  }

  /** A client that is already in the tables changes its record. */
  lemma RecordKept<Id>(w: World<Id>, c: Id, i: ClientInfo)
    requires ClientsOk(w.info, w.clients) && LadderOk(w.info) && c in w.info && i.fd == w.info[c].fd
    requires Climbed(i)
    ensures ClientsOk(w.info[c := i], w.clients) && LadderOk(w.info[c := i])
  {
  }

  lemma PassInv<Id>(w: World<Id>, c: Id, parts: seq<string>)
    requires Inv(w) && c in w.info
    ensures Inv(PassStep(w, c, parts))
  {
    hide ChannelsOk, ClientsOk, PollOk, NicksDistinct;
    ChannelsKept(w, c, Of(w.info, c).(auth := true));
    RecordKept(w, c, Of(w.info, c).(auth := true));
  }

  lemma UserInv<Id>(w: World<Id>, c: Id, parts: seq<string>)
    requires Inv(w) && c in w.info
    ensures Inv(UserStep(w, c, parts))
  {
    hide ChannelsOk, ClientsOk, PollOk, NicksDistinct, Join, StripColon;
    if UserStep(w, c, parts) != w {
      var i := Of(UserStep(w, c, parts).info, c);
      ChannelsKept(w, c, i);
      RecordKept(w, c, i);
    }
  }

  lemma NickInv<Id>(w: World<Id>, c: Id, parts: seq<string>)
    requires Inv(w) && c in w.info && Of(w.info, c).fd in w.clients && w.clients[Of(w.info, c).fd] == c
    ensures Inv(NickStep(w, c, parts))
  {
    hide ChannelsOk, ClientsOk, PollOk, NicksOk, NickTaken;
    if NickStep(w, c, parts) != w {
      var i := Of(w.info, c).(nick := parts[1], hasNick := true);
      ChannelsKept(w, c, i);
      RecordKept(w, c, i);
      NicksGrow(w, c, parts[1]);
    }
  }

  lemma NicksGrow<Id>(w: World<Id>, c: Id, nick: string)
    requires ClientsOk(w.info, w.clients) && NicksOk(w.info, w.clients, w.nicks) && !NickTaken(w.nicks, nick)
    requires c in w.info && Of(w.info, c).fd in w.clients && w.clients[Of(w.info, c).fd] == c
    ensures var me := Of(w.info, c);
            NicksOk(w.info[c := me.(nick := nick, hasNick := true)], w.clients, w.nicks + [(me.fd, nick)])
  {
    var me := Of(w.info, c);
    var nicks := w.nicks + [(me.fd, nick)];
    assert nicks[|w.nicks|] == (me.fd, nick);
    assert forall e <- w.nicks :: e in nicks;
  }

  lemma JoinInv<Id>(w: World<Id>, c: Id, parts: seq<string>)
    requires Inv(w) && c in w.info && Of(w.info, c).loged
    ensures Inv(JoinStep(w, c, parts))
  {
    hide ClientsOk, LadderOk, NicksOk, PollOk;
    if JoinStep(w, c, parts) != w && parts[1] in w.channels {
      var ch := w.channels[parts[1]];
      DistinctSnoc(ch.members, c);
      assert ChanOk(w.info, parts[1], ch.(members := ch.members + [c]));
    }
    SameTables(w, JoinStep(w, c, parts));
  }

  /** A step that changes channels only keeps what is said about the other tables. */
  lemma SameTables<Id>(w: World<Id>, w': World<Id>)
    requires Inv(w) && w' == w.(channels := w'.channels) && ChannelsOk(w.info, w'.channels)
    ensures Inv(w')
  {
    hide ChannelsOk, LadderOk;
  }

  lemma LeaveOk<Id>(info: map<Id, ClientInfo>, key: string, ch: Chan<Id>, c: Id)
    requires ChanOk(info, key, ch) && c in ch.members
    ensures Leave(info, ch, c).Some? ==> ChanOk(info, key, Leave(info, ch, c).value)
  {
    RemoveFirstDistinct(ch.members, c);
  }

  lemma LeaveAtOk<Id>(info: map<Id, ClientInfo>, channels: map<string, Chan<Id>>, key: string, c: Id)
    requires ChannelsOk(info, channels)
    ensures ChannelsOk(info, LeaveAt(info, channels, key, c))
  {
    hide ChanOk, Leave;
    if key in channels && c in channels[key].members {
      LeaveOk(info, key, channels[key], c);
    }
  }

  lemma {:induction false} PartAllOk<Id>(info: map<Id, ClientInfo>, channels: map<string, Chan<Id>>, names: seq<string>,
                                         c: Id)
    requires ChannelsOk(info, channels)
    ensures ChannelsOk(info, PartAll(info, channels, names, c))
    decreases |names|
  {
    hide ChannelsOk;
    if names != [] {
      LeaveAtOk(info, channels, names[0], c);
      PartAllOk(info, LeaveAt(info, channels, names[0], c), names[1..], c);
    }
  }

  lemma TopicInv<Id>(w: World<Id>, c: Id, parts: seq<string>)
    requires Inv(w)
    ensures Inv(TopicStep(w, c, parts))
  {
    hide ClientsOk, LadderOk, NicksOk, PollOk, Join;
    if TopicStep(w, c, parts) != w {
      assert ChanOk(w.info, parts[1], w.channels[parts[1]]);
    }
    SameTables(w, TopicStep(w, c, parts));
  }

  lemma KickInv<Id>(w: World<Id>, c: Id, parts: seq<string>)
    requires Inv(w) && KickStep(w, c, parts).Some?
    ensures Inv(KickStep(w, c, parts).value)
  {
    hide ClientsOk, LadderOk, NicksOk, PollOk, ChannelsOk, LeaveAt, Leave;
    if KickStep(w, c, parts).value != w {
      LeaveAtOk(w.info, w.channels, parts[1], ByNick(w.info, w.clients, parts[2]).value);
      SameTables(w, KickStep(w, c, parts).value);
    }
  }

  lemma LineInv<Id>(w: World<Id>, fd: int, line: string, closes: bool)
    requires Inv(w) && LineStep(w, fd, line, closes).Some?
    ensures Inv(LineStep(w, fd, line, closes).value)
  {
    hide Inv, CommandParts, Says, PassStep, NickStep, UserStep, JoinStep, PartAll, TopicStep, KickStep, Targets, Close;
    hide SplitAll;
    ClientIs(w, fd);
    var c, parts := w.clients[fd], CommandParts(line);
    PassInv(w, c, parts);
    NickInv(w, c, parts);
    UserInv(w, c, parts);
    CloseInv(w, fd);
    if Of(w.info, c).loged {
      JoinInv(w, c, parts);
      PartInv(w, c, parts);
      TopicInv(w, c, parts);
    }
    if KickStep(w, c, parts).Some? {
      KickInv(w, c, parts);
    }
  }

  lemma PartInv<Id>(w: World<Id>, c: Id, parts: seq<string>)
    requires Inv(w)
    ensures Inv(PartStep(w, c, parts))
  {
    hide ClientsOk, LadderOk, NicksOk, PollOk, ChannelsOk, PartAll, SplitAll;
    if |parts| >= 2 {
      PartAllOk(w.info, w.channels, SplitAll(parts[1], ","), c);
      SameTables(w, PartStep(w, c, parts));
    }
  }

  lemma ClientIs<Id>(w: World<Id>, fd: int)
    requires Inv(w) && fd in w.clients
    ensures w.clients[fd] in w.info && Of(w.info, w.clients[fd]).fd == fd && fd != w.listener
  {
  }

  /** Every event keeps the invariant. */
  lemma StepInv<Id>(w: World<Id>, e: Event<Id>)
    requires Inv(w) && Enabled(w, e) && Step(w, e).Some?
    ensures Inv(Step(w, e).value)
  {
    hide Inv, LineStep, Close;
    match e
    case Accept(c, fd, ip) => AcceptInv(w, c, fd, ip);
    case Line(fd, line, closes) => LineInv(w, fd, line, closes);
    case Hangup(fd, closes) => CloseInv(w, fd);
  }

  lemma InitInv<Id>(password: string, botNick: string, listener: int)
    ensures Inv(Init<Id>(password, botNick, listener))
  {
  }

  /** Hence every state of every run satisfies it. */
  lemma {:induction false} RunInv<Id>(ws: seq<World<Id>>, es: seq<Event<Id>>, k: nat)
    requires IsRun(ws, es) && k < |ws|
    ensures Inv(ws[k])
  {
    hide Inv, Step, Enabled, Init;
    if k == 0 {
      InitInv<Id>(ws[0].password, ws[0].botNick, ws[0].listener);
    } else {
      var j := k - 1;
      RunInv(ws, es, j);
      assert Enabled(ws[j], es[j]) && Step(ws[j], es[j]) == Some(ws[j + 1]);
      StepInv(ws[j], es[j]);
    }
  }

  lemma RunStep<Id>(ws: seq<World<Id>>, es: seq<Event<Id>>, k: nat)
    requires IsRun(ws, es) && k < |es|
    ensures Enabled(ws[k], es[k]) && Step(ws[k], es[k]) == Some(ws[k + 1]) && Inv(ws[k]) && Inv(ws[k + 1])
  {
    hide Inv, Step, Enabled, Init;
    RunInv(ws, es, k);
    RunInv(ws, es, k + 1);
  }

  /** The event is a PASS with the server's password by the client. */
  ghost predicate GivesPassword<Id>(w: World<Id>, e: Event<Id>, c: Id) {
    && e.Line? && e.fd in w.clients && w.clients[e.fd] == c
    && var parts := CommandParts(e.line);
    Says(parts, "PASS") && |parts| >= 2 && parts[1] == w.password
  }

  /** No other command touches the flag. */
  lemma OthersKeepAuth<Id>(w: World<Id>, sender: Id, parts: seq<string>, c: Id)
    ensures Of(NickStep(w, sender, parts).info, c).auth == Of(w.info, c).auth
    ensures Of(UserStep(w, sender, parts).info, c).auth == Of(w.info, c).auth
    ensures NickStep(w, sender, parts).password == UserStep(w, sender, parts).password == w.password
  {
    hide NickTaken, Join, StripColon;
  }

  lemma ChannelsOnly<Id>(w: World<Id>, sender: Id, parts: seq<string>)
    ensures JoinStep(w, sender, parts).info == w.info && JoinStep(w, sender, parts).password == w.password
    ensures PartStep(w, sender, parts).info == w.info && PartStep(w, sender, parts).password == w.password
    ensures TopicStep(w, sender, parts).info == w.info && TopicStep(w, sender, parts).password == w.password
    ensures var kick := KickStep(w, sender, parts);
            kick.Some? ==> kick.value.info == w.info && kick.value.password == w.password
  {
    hide ByNick, PartAll, Join, LeaveAt, Leave, SplitAll;
  }

  lemma StepPassword<Id>(w: World<Id>, e: Event<Id>, w': World<Id>, c: Id)
    requires Step(w, e) == Some(w')
    ensures w'.password == w.password
    ensures Of(w'.info, c).auth ==> Of(w.info, c).auth || GivesPassword(w, e, c)
  {
    hide CommandParts, Says, NickStep, UserStep, JoinStep, PartStep, TopicStep, KickStep, Targets, Without, DropEntry;
    if e.Line? && e.fd in w.clients {
      OthersKeepAuth(w, w.clients[e.fd], CommandParts(e.line), c);
      ChannelsOnly(w, w.clients[e.fd], CommandParts(e.line));
    }
  }

  lemma NobodyAtStart<Id>(ws: seq<World<Id>>, es: seq<Event<Id>>, c: Id)
    requires IsRun(ws, es)
    ensures !Of(ws[0].info, c).auth
  {
    hide Step, Enabled;
  }

  /** Whoever gets past the first rung, and hence every member of a channel, gave the server's password before. */
  lemma {:induction false} EveryoneGavePassword<Id>(ws: seq<World<Id>>, es: seq<Event<Id>>, k: nat, c: Id)
    returns (j: nat)
    requires IsRun(ws, es) && k < |ws| && Of(ws[k].info, c).auth
    ensures j < k && GivesPassword(ws[j], es[j], c) && ws[j].password == ws[k].password
  {
    hide Inv, Step, Enabled, GivesPassword;
    NobodyAtStart(ws, es, c);
    if k > 0 {
      RunStep(ws, es, k - 1);
      StepPassword(ws[k - 1], es[k - 1], ws[k], c);
      if Of(ws[k - 1].info, c).auth {
        j := EveryoneGavePassword(ws, es, k - 1, c);
      } else {
        j := k - 1;
      }
    }
  }
}
