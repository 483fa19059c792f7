/**
 * The operator of an `_irc_` channel is a nickname in a field. It is the nick of the front member over every run in
 * which nobody renames himself at the front of a channel, and of no other member if nobody disconnects while on one.
 */
module IrcSuccession {
  import opened Lists
  import opened Text
  import opened Tokenizer
  import opened IrcText
  import opened IrcState
  import opened IrcSteps
  import opened IrcInvariant
  import opened IrcPart

  // ---------------------------------------------------------------- what is kept

  /** The stored operator is the nick of the front of the list. */
  predicate Led<Id(==)>(info: map<Id, ClientInfo>, ch: Chan<Id>) {
    ch.members != [] && ch.op == Of(info, ch.members[0]).nick
  }

  /** No two members have the same nick. */
  ghost predicate Apart<Id>(info: map<Id, ClientInfo>, ch: Chan<Id>) {
    forall i, j :: 0 <= i < j < |ch.members| ==> Of(info, ch.members[i]).nick != Of(info, ch.members[j]).nick
  }

  ghost predicate AllLed<Id>(info: map<Id, ClientInfo>, channels: map<string, Chan<Id>>) {
    forall key <- channels :: Led(info, channels[key])
  }

  ghost predicate Connected<Id>(w: World<Id>, c: Id) {
    c in w.info && w.info[c].fd in w.clients && w.clients[w.info[c].fd] == c
  }

  /** Every member of a channel is connected. */
  ghost predicate Present<Id>(w: World<Id>) {
    forall key <- w.channels :: forall c <- w.channels[key].members :: Connected(w, c)
  }

  ghost predicate Succession<Id>(w: World<Id>) {
    Present(w) && AllLed(w.info, w.channels)
  }

  predicate FrontsOne<Id(==)>(channels: map<string, Chan<Id>>, c: Id) {
    exists key :: key in channels && channels[key].members != [] && channels[key].members[0] == c
  }

  predicate OnOne<Id(==)>(channels: map<string, Chan<Id>>, c: Id) {
    exists key :: key in channels && c in channels[key].members
  }

  /** The words are a NICK that is accepted. */
  predicate Renames<Id(==)>(w: World<Id>, c: Id, parts: seq<string>) {
    Says(parts, "NICK") && Of(w.info, c).auth && |parts| >= 2 && !NickTaken(w.nicks, parts[1])
  }

  predicate Quits<Id(==)>(w: World<Id>, c: Id, parts: seq<string>) {
    Says(parts, "QUIT") && Of(w.info, c).auth && Of(w.info, c).loged
  }

  /** The event is an accepted NICK of a client at the front of a channel. */
  predicate FrontRenames<Id(==)>(w: World<Id>, e: Event<Id>) {
    && e.Line? && e.fd in w.clients && CommandParts(e.line) != []
    && Renames(w, w.clients[e.fd], CommandParts(e.line)) && FrontsOne(w.channels, w.clients[e.fd])
  }

  /** Nobody renames himself at the front of a channel, and nobody disconnects while on one. */
  predicate Calm<Id(==)>(w: World<Id>, e: Event<Id>) {
    match e
    case Accept(_, _, _) => true
    case Hangup(fd, closes) => fd in w.clients && closes ==> !OnOne(w.channels, w.clients[fd])
    case Line(fd, line, closes) =>
      fd in w.clients ==>
        var c, parts := w.clients[fd], CommandParts(line);
        && (Renames(w, c, parts) ==> !FrontsOne(w.channels, c))
        && (Quits(w, c, parts) && closes ==> !OnOne(w.channels, c))
  }

  /** Connected members have different nicks, so the operator's nick is that of one member only. */
  lemma MembersApart<Id>(w: World<Id>, key: string)
    requires Inv(w) && Present(w) && key in w.channels
    ensures Apart(w.info, w.channels[key])
  {
    hide NicksOk, PollOk, Apart;
    var members := w.channels[key].members;
    assert ChanOk(w.info, key, w.channels[key]);
    forall i, j | 0 <= i < j < |members| ensures Of(w.info, members[i]).nick != Of(w.info, members[j]).nick {
      assert members[i] in members && members[j] in members;
      assert Connected(w, members[i]) && Connected(w, members[j]);
      LiveNicksUnique(w, w.info[members[i]].fd, w.info[members[j]].fd);
    }
    ApartIs(w.info, w.channels[key]);
  }

  lemma ApartIs<Id>(info: map<Id, ClientInfo>, ch: Chan<Id>)
    requires forall i, j :: 0 <= i < j < |ch.members| ==> Of(info, ch.members[i]).nick != Of(info, ch.members[j]).nick
    ensures Apart(info, ch)
  {
  }

  // ---------------------------------------------------------------- leaving elects the next in line

  /** Whoever leaves, the front member leads: as the old one, or as the next in line. */
  lemma LeaveLed<Id>(info: map<Id, ClientInfo>, ch: Chan<Id>, c: Id)
    requires Led(info, ch) && Leave(info, ch, c).Some?
    ensures Led(info, Leave(info, ch, c).value)
  {
    if ch.members[0] != c {
      assert RemoveFirst(ch.members, c)[0] == ch.members[0];
    }
  }

  lemma LeaveAtLed<Id>(info: map<Id, ClientInfo>, channels: map<string, Chan<Id>>, key: string, c: Id)
    requires AllLed(info, channels)
    ensures AllLed(info, LeaveAt(info, channels, key, c))
  {
    hide Led, Leave;
    if key in channels && Leave(info, channels[key], c).Some? {
      LeaveLed(info, channels[key], c);
    }
  }

  lemma {:induction false} PartAllLed<Id>(info: map<Id, ClientInfo>, channels: map<string, Chan<Id>>,
                                          names: seq<string>, c: Id)
    requires AllLed(info, channels)
    ensures AllLed(info, PartAll(info, channels, names, c))
    decreases |names|
  {
    hide AllLed, LeaveAt;
    if names != [] {
      LeaveAtLed(info, channels, names[0], c);
      PartAllLed(info, LeaveAt(info, channels, names[0], c), names[1..], c);
    }
  }

  // ---------------------------------------------------------------- the other commands

  lemma JoinLed<Id>(w: World<Id>, c: Id, parts: seq<string>)
    requires AllLed(w.info, w.channels)
    ensures AllLed(w.info, JoinStep(w, c, parts).channels) && JoinStep(w, c, parts).info == w.info
  {
  }

  lemma TopicLed<Id>(w: World<Id>, c: Id, parts: seq<string>)
    requires AllLed(w.info, w.channels)
    ensures AllLed(w.info, TopicStep(w, c, parts).channels) && TopicStep(w, c, parts).info == w.info
  {
    hide Join;
  }

  lemma PartLed<Id>(w: World<Id>, c: Id, parts: seq<string>)
    requires AllLed(w.info, w.channels)
    ensures AllLed(w.info, PartStep(w, c, parts).channels) && PartStep(w, c, parts).info == w.info
  {
    hide AllLed, PartAll, SplitAll;
    if |parts| >= 2 {
      PartAllLed(w.info, w.channels, SplitAll(parts[1], ","), c);
    }
  }

  lemma KickLed<Id>(w: World<Id>, c: Id, parts: seq<string>)
    requires AllLed(w.info, w.channels) && KickStep(w, c, parts).Some?
    ensures var w' := KickStep(w, c, parts).value; AllLed(w'.info, w'.channels)
  {
    hide AllLed, ByNick, Leave, LeaveAt;
    if |parts| >= 3 && ByNick(w.info, w.clients, parts[2]).Some? {
      LeaveAtLed(w.info, w.channels, parts[1], ByNick(w.info, w.clients, parts[2]).value);
    }
  }

  /** A record may change as long as its nick stays. */
  lemma RecordLed<Id>(w: World<Id>, c: Id, i: ClientInfo)
    requires AllLed(w.info, w.channels) && i.nick == Of(w.info, c).nick
    ensures AllLed(w.info[c := i], w.channels)
  {
  }

  lemma LadderLed<Id>(w: World<Id>, c: Id, parts: seq<string>)
    requires AllLed(w.info, w.channels)
    ensures var v := UserStep(w, c, parts); AllLed(v.info, v.channels)
    ensures var v := PassStep(w, c, parts); AllLed(v.info, v.channels)
  {
    hide AllLed, Join, StripColon;
    if UserStep(w, c, parts) != w {
      RecordLed(w, c, Of(UserStep(w, c, parts).info, c));
    }
    if PassStep(w, c, parts) != w {
      RecordLed(w, c, Of(PassStep(w, c, parts).info, c));
    }
  }

  /** The channels are led after an accepted NICK exactly when the client that renames itself fronts none of them. */
  lemma NickLedIff<Id>(w: World<Id>, c: Id, parts: seq<string>)
    requires Inv(w) && AllLed(w.info, w.channels) && Connected(w, c) && Renames(w, c, parts)
    ensures var w' := NickStep(w, c, parts); AllLed(w'.info, w'.channels) <==> !FrontsOne(w.channels, c)
  {
    hide Inv, Connected, NickTaken, PollOk;
    var w' := NickStep(w, c, parts);
    forall key | key in w.channels ensures Led(w'.info, w'.channels[key]) <==> w.channels[key].members[0] != c {
      assert Led(w.info, w.channels[key]);
      if w.channels[key].members[0] == c {
        NickChanges(w, c, parts, key);
      }
    }
  }

  /** An accepted nick is a new one for a client that is on a channel. */
  lemma NickChanges<Id>(w: World<Id>, c: Id, parts: seq<string>, key: string)
    requires Inv(w) && Connected(w, c) && Renames(w, c, parts) && key in w.channels && c in w.channels[key].members
    ensures Of(w.info, c).nick != parts[1]
  {
    hide PollOk, NicksDistinct;
    assert ChanOk(w.info, key, w.channels[key]);
    assert w.info[c].hasNick;
    assert (w.info[c].fd, w.info[c].nick) in w.nicks;
  }

  lemma NickIdle<Id>(w: World<Id>, c: Id, parts: seq<string>)
    requires Says(parts, "NICK") && !Renames(w, c, parts)
    ensures NickStep(w, c, parts) == w
  {
  }

  lemma AcceptLed<Id>(w: World<Id>, c: Id, fd: int, ip: string)
    requires ChannelsOk(w.info, w.channels) && AllLed(w.info, w.channels) && c !in w.info
    ensures AllLed(w.info[c := Newcomer(fd, ip)], w.channels)
  {
    forall key | key in w.channels ensures Led(w.info[c := Newcomer(fd, ip)], w.channels[key]) {
      assert Led(w.info, w.channels[key]) && ChanOk(w.info, key, w.channels[key]);
    }
  }

  lemma ChannelsOf<Id>(w: World<Id>)
    requires Inv(w)
    ensures ChannelsOk(w.info, w.channels)
  {
  }

  lemma ClientConnected<Id>(w: World<Id>, fd: int)
    requires Inv(w) && fd in w.clients
    ensures Connected(w, w.clients[fd]) && Of(w.info, w.clients[fd]).fd == fd
  {
  }

  lemma LineLedIff<Id>(w: World<Id>, fd: int, line: string, closes: bool)
    requires Inv(w) && AllLed(w.info, w.channels) && LineStep(w, fd, line, closes).Some?
    ensures var w' := LineStep(w, fd, line, closes).value;
            AllLed(w'.info, w'.channels) <==> !FrontRenames(w, Line(fd, line, closes))
  {
    hide Inv, AllLed, CommandParts, PassStep, UserStep, NickStep, JoinStep, PartStep, TopicStep, KickStep, Targets;
    hide FrontsOne, Connected, Renames;
    ClientConnected(w, fd);
    var c, parts := w.clients[fd], CommandParts(line);
    RenamesByNick(w, c, parts);
    LadderLed(w, c, parts);
    if Renames(w, c, parts) {
      NickLedIff(w, c, parts);
    } else if Says(parts, "NICK") {
      NickIdle(w, c, parts);
    }
    JoinLed(w, c, parts);
    PartLed(w, c, parts);
    TopicLed(w, c, parts);
    if KickStep(w, c, parts).Some? {
      KickLed(w, c, parts);
    }
  }

  lemma RenamesByNick<Id>(w: World<Id>, c: Id, parts: seq<string>)
    ensures Renames(w, c, parts) ==> Says(parts, "NICK") && !Says(parts, "CAP") && !Says(parts, "PASS")
  {
    if Says(parts, "NICK") {
      var at := if parts[0] == "NICK" then 0 else 1;
      assert parts[0][at] == 'N';
      assert "CAP"[0] == ("/" + "CAP")[1] == 'C' && "PASS"[0] == ("/" + "PASS")[1] == 'P';
    }
  }

  /** An event leaves every channel to the nick of its front member if and only if it does not rename a front member. */
  lemma StepLedIff<Id>(w: World<Id>, e: Event<Id>)
    requires Inv(w) && AllLed(w.info, w.channels) && Enabled(w, e) && Step(w, e).Some?
    ensures var w' := Step(w, e).value; AllLed(w'.info, w'.channels) <==> !FrontRenames(w, e)
  {
    hide Inv, AllLed, LineStep, Without, DropEntry, Renames, FrontsOne;
    match e
    case Accept(c, fd, ip) =>
      ChannelsOf(w);
      AcceptLed(w, c, fd, ip);
    case Line(fd, line, closes) => LineLedIff(w, fd, line, closes);
    case Hangup(fd, closes) =>
  }

  /** Over a run, disconnects included, the operators are the front members' nicks until one of them renames himself. */
  lemma {:induction false} RunLedIff<Id>(ws: seq<World<Id>>, es: seq<Event<Id>>, k: nat)
    requires IsRun(ws, es) && k < |ws|
    ensures (forall j :: 0 <= j < k ==> !FrontRenames(ws[j], es[j]))
       <==> (forall j :: 0 <= j <= k ==> AllLed(ws[j].info, ws[j].channels))
  {
    hide Inv, Step, Enabled, FrontRenames;
    if k > 0 {
      RunLedIff(ws, es, k - 1);
      RunStep(ws, es, k - 1);
      hide AllLed;
      if AllLed(ws[k - 1].info, ws[k - 1].channels) {
        StepLedIff(ws[k - 1], es[k - 1]);
      }
    }
  }

  // ---------------------------------------------------------------- members stay connected

  lemma SameConnected<Id>(w: World<Id>, w': World<Id>, c: Id)
    requires Connected(w, c) && w'.info == w.info && w'.clients == w.clients
    ensures Connected(w', c)
  {
  }

  lemma JoinPresent<Id>(w: World<Id>, c: Id, parts: seq<string>)
    requires Present(w) && Connected(w, c)
    ensures Present(JoinStep(w, c, parts))
  {
    hide Connected;
    var w' := JoinStep(w, c, parts);
    forall key, m | key in w'.channels && m in w'.channels[key].members ensures Connected(w', m) {
      assert key in w.channels && m in w.channels[key].members ==> Connected(w, m);
      SameConnected(w, w', m);
    }
  }

  /** No channel has a member that it did not have before. */
  ghost predicate NoNewcomers<Id>(before: map<string, Chan<Id>>, after: map<string, Chan<Id>>) {
    forall key <- after :: key in before && forall m <- after[key].members :: m in before[key].members
  }

  lemma LeaveAtShrinks<Id>(info: map<Id, ClientInfo>, channels: map<string, Chan<Id>>, key: string, c: Id)
    ensures NoNewcomers(channels, LeaveAt(info, channels, key, c))
  {
  }

  lemma {:induction false} PartAllShrinks<Id>(info: map<Id, ClientInfo>, channels: map<string, Chan<Id>>,
                                              names: seq<string>, c: Id)
    ensures NoNewcomers(channels, PartAll(info, channels, names, c))
    decreases |names|
  {
    hide LeaveAt;
    if names != [] {
      LeaveAtShrinks(info, channels, names[0], c);
      PartAllShrinks(info, LeaveAt(info, channels, names[0], c), names[1..], c);
    }
  }

  lemma CommandsShrink<Id>(w: World<Id>, c: Id, parts: seq<string>)
    ensures NoNewcomers(w.channels, TopicStep(w, c, parts).channels)
    ensures NoNewcomers(w.channels, PartStep(w, c, parts).channels)
    ensures KickStep(w, c, parts).Some? ==> NoNewcomers(w.channels, KickStep(w, c, parts).value.channels)
  {
    hide Join, PartAll, SplitAll, ByNick, Leave, LeaveAt;
    if |parts| >= 2 {
      PartAllShrinks(w.info, w.channels, SplitAll(parts[1], ","), c);
    }
    if |parts| >= 3 && ByNick(w.info, w.clients, parts[2]).Some? {
      LeaveAtShrinks(w.info, w.channels, parts[1], ByNick(w.info, w.clients, parts[2]).value);
    }
  }

  lemma ShrunkPresent<Id>(w: World<Id>, w': World<Id>)
    requires Present(w) && NoNewcomers(w.channels, w'.channels)
    requires forall m :: Connected(w, m) ==> Connected(w', m)
    ensures Present(w')
  {
    hide Connected;
  }

  lemma CloseConnected<Id>(w: World<Id>, fd: int)
    requires Inv(w) && Present(w) && (fd in w.clients ==> !OnOne(w.channels, w.clients[fd]))
    ensures Present(Close(w, fd))
  {
    hide Inv, DropEntry, Without;
    var w' := Close(w, fd);
    forall key, m | key in w'.channels && m in w'.channels[key].members ensures Connected(w', m) {
      assert Connected(w, m);
    }
  }

  lemma RecordsConnected<Id>(w: World<Id>, c: Id, parts: seq<string>)
    requires Inv(w) && Present(w) && c in w.info
    ensures Present(UserStep(w, c, parts)) && Present(PassStep(w, c, parts)) && Present(NickStep(w, c, parts))
  {
    hide Inv, Present, NickTaken, Join, StripColon;
    ShrunkPresent(w, UserStep(w, c, parts));
    ShrunkPresent(w, PassStep(w, c, parts));
    ShrunkPresent(w, NickStep(w, c, parts));
  }

  lemma LinePresent<Id>(w: World<Id>, fd: int, line: string, closes: bool)
    requires Inv(w) && Present(w) && LineStep(w, fd, line, closes).Some? && Calm(w, Line(fd, line, closes))
    ensures Present(LineStep(w, fd, line, closes).value)
  {
    hide Inv, Present, CommandParts, PassStep, UserStep, NickStep, JoinStep, PartStep, TopicStep, KickStep, Targets;
    hide FrontsOne, OnOne, NickTaken, Connected, Close, NoNewcomers;
    ClientConnected(w, fd);
    var c, parts := w.clients[fd], CommandParts(line);
    ClientIs(w, fd);
    RecordsConnected(w, c, parts);
    JoinPresent(w, c, parts);
    CommandsPresent(w, c, parts);
    if Quits(w, c, parts) && closes {
      CloseConnected(w, fd);
    }
  }

  lemma CommandsPresent<Id>(w: World<Id>, c: Id, parts: seq<string>)
    requires Present(w)
    ensures Present(PartStep(w, c, parts)) && Present(TopicStep(w, c, parts))
    ensures KickStep(w, c, parts).Some? ==> Present(KickStep(w, c, parts).value)
  {
    hide Present, NoNewcomers, PartAll, SplitAll, Join, Leave, LeaveAt, ByNick;
    CommandsShrink(w, c, parts);
    ShrunkPresent(w, PartStep(w, c, parts));
    ShrunkPresent(w, TopicStep(w, c, parts));
    if KickStep(w, c, parts).Some? {
      ShrunkPresent(w, KickStep(w, c, parts).value);
    }
  }

  lemma AcceptPresent<Id>(w: World<Id>, c: Id, fd: int, ip: string)
    requires Present(w) && c !in w.info && fd !in w.clients
    ensures Present(w.(info := w.info[c := Newcomer(fd, ip)], clients := w.clients[fd := c], fds := w.fds + [fd]))
  {
    var w' := w.(info := w.info[c := Newcomer(fd, ip)], clients := w.clients[fd := c], fds := w.fds + [fd]);
    forall key, m | key in w'.channels && m in w'.channels[key].members ensures Connected(w', m) {
      assert Connected(w, m);
    }
  }

  /** A calm event keeps the members connected and each channel with the nick of its front member. */
  lemma StepSuccession<Id>(w: World<Id>, e: Event<Id>)
    requires Inv(w) && Succession(w) && Enabled(w, e) && Step(w, e).Some? && Calm(w, e)
    ensures Succession(Step(w, e).value)
  {
    CalmRenamesNone(w, e);
    hide Inv, AllLed, LineStep, Close, OnOne, FrontsOne, Renames, Quits, FrontRenames, Present;
    StepLedIff(w, e);
    match e
    case Accept(c, fd, ip) => AcceptPresent(w, c, fd, ip);
    case Line(fd, line, closes) => LinePresent(w, fd, line, closes);
    case Hangup(fd, closes) =>
      if closes {
        CloseConnected(w, fd);
      }
  }

  lemma CalmRenamesNone<Id>(w: World<Id>, e: Event<Id>)
    requires Calm(w, e)
    ensures !FrontRenames(w, e)
  {
    hide CommandParts, Renames, FrontsOne, OnOne, Quits;
  }

  lemma {:induction false} RunSuccession<Id>(ws: seq<World<Id>>, es: seq<Event<Id>>, k: nat)
    requires IsRun(ws, es) && k < |ws| && forall j :: 0 <= j < k ==> Calm(ws[j], es[j])
    ensures Succession(ws[k])
  {
    hide Inv, Step, Enabled, Calm;
    if k > 0 {
      RunSuccession(ws, es, k - 1);
      RunStep(ws, es, k - 1);
      StepSuccession(ws[k - 1], es[k - 1]);
    }
  }
}
