/** The classes of the `_irc_` server: a client map, a nick table, a channel map and a poll set, updated in place. */
module IrcServer {
  import opened Lists
  import opened Text
  import opened Tokenizer
  import opened Wire
  import opened IrcText
  import opened IrcState
  import opened IrcSteps
  import opened IrcInvariant
  import opened IrcPoll
  import opened IrcLoop
  import opened IrcLetters
  import Bot

  class Client {
    const fd: int
    var ip: string
    var nick: string
    var user: string
    var realName: string
    var auth: bool
    var hasNick: bool
    var loged: bool

    constructor (fd: int, ip: string)
      ensures Info() == Newcomer(fd, ip)
    {
      this.fd, this.ip := fd, ip;
      nick, user, realName := "", "", "";
      auth, hasNick, loged := false, false, false;
    }

    ghost function Info(): ClientInfo
      reads this
    {
      ClientInfo(fd, ip, nick, user, realName, auth, hasNick, loged)
    }

    /** `getPrefix`. */
    method GetPrefix() returns (prefix: string)
      ensures prefix == Prefix(Info())
    {
      var username := if user == "" then "*" else user;
      var hostname := if ip == "" then "*" else ip;
      prefix := nick + "!" + username + "@" + hostname;
    }
  }

  /** What is known of a set of clients. */
  ghost function Snapshot(known: set<Client>): map<Client, ClientInfo>
    reads known
  {
    map c | c in known :: c.Info()
  }

  class Channel {
    const name: string
    var key: string
    var topic: string
    var op: string
    var members: seq<Client>

    constructor (name: string)
      ensures State() == Chan(name, "", "", "", [])
    {
      this.name := name;
      key, topic, op, members := "", "", "", [];
    }

    ghost function State(): Chan<Client>
      reads this
    {
      Chan(name, key, topic, op, members)
    }

    method IsUserOnChannel(client: Client) returns (on: bool)
      ensures on <==> client in members
    {
      for i := 0 to |members|
        invariant client !in members[..i]
      {
        if members[i] == client {
          return true;
        }
      }
      on := false;
    }
  }

  ghost function States(channels: map<string, Channel>): map<string, Chan<Client>>
    reads channels.Values
  {
    map key | key in channels :: channels[key].State()
  }

  /** The first of the keys of an ordered map, if there are any. */
  method Lowest(keys: set<int>) returns (low: Option<int>)
    ensures match low
            case None => forall x: int :: x !in keys
            case Some(l) => l in keys && forall x <- keys :: l <= x
    decreases |keys|
  {
    if x: int :| x in keys {
      var rest := Lowest(keys - {x});
      low := if rest.Some? && rest.value < x then rest else Some(x);
      assert forall y <- keys :: y == x || y in keys - {x};
    } else {
      low := None;
    }
  }

  class Server {
    const password: string
    const botNick: string
    const listener: int
    const poll: PollManager
    var clients: map<int, Client>
    var nickList: seq<(int, string)>
    var channels: map<string, Channel>
    ghost var known: set<Client>

    constructor (password: string, botNick: string, listener: int)
      ensures Valid() && World() == Init(password, botNick, listener) && fresh(poll)
    {
      this.password, this.botNick, this.listener := password, botNick, listener;
      clients, nickList, channels, known := map[], [], map[], {};
      poll := new PollManager();
      new;
      poll.AddFd(listener);
      assert Snapshot({}) == map[] && States(map[]) == map[];
      InitInv<Client>(password, botNick, listener);
    }

    ghost function World(): IrcState.World<Client>
      reads this, poll, known, channels.Values
    {
      IrcState.World(password, botNick, listener, Snapshot(known), clients, nickList, States(channels), poll.fds)
    }

    /** All references lead to known clients, and the channel map is keyed by name. */
    ghost predicate Shape()
      reads this, channels.Values
    {
      && (forall fd <- clients :: clients[fd] in known)
      && forall key <- channels :: channels[key].name == key && forall c <- channels[key].members :: c in known
    }

    ghost predicate Valid()
      reads this, poll, known, channels.Values
    {
      Shape() && Inv(World())
    }

    // -------------------------------------------------------------- how the abstract state changes

    lemma View()
      ensures World().info == Snapshot(known) && World().clients == clients && World().nicks == nickList
      ensures World().channels == States(channels) && World().fds == poll.fds
      ensures World().password == password && World().botNick == botNick && World().listener == listener
    {
    }

    lemma Keys()
      ensures World().channels.Keys == channels.Keys
    {
    }

    lemma InfoOf(c: Client)
      requires c in known
      ensures Of(World().info, c) == c.Info()
    {
    }

    lemma ChannelAt(key: string)
      requires Shape() && key in channels
      ensures States(channels)[key] == channels[key].State() && channels[key].name == key
      ensures forall c <- channels[key].members :: c in known
      ensures forall other <- channels :: other != key ==> channels[other] != channels[key]
    {
    }

    twostate lemma SenderChanged(c: Client)
      requires old(Shape()) && unchanged(this) && unchanged(poll) && c in known
      requires forall d <- known :: d != c ==> unchanged(d)
      requires forall key <- channels :: unchanged(channels[key])
      ensures Shape() && World() == SetInfo(old(World()), c, c.Info())
    {
      assert Snapshot(known) == old(Snapshot(known))[c := c.Info()];
      assert States(channels) == old(States(channels));
    }

    twostate lemma ClientAdded(new c: Client, fd: int)
      requires old(Shape()) && unchanged(this`channels) && unchanged(this`nickList)
      requires known == old(known) + {c} && clients == old(clients)[fd := c] && poll.fds == old(poll.fds) + [fd]
      requires c !in old(known) && (forall d <- old(known) :: unchanged(d))
      requires forall key <- channels :: unchanged(channels[key])
      ensures var w := old(World());
              && Shape()
              && World() == w.(info := w.info[c := c.Info()], clients := w.clients[fd := c], fds := w.fds + [fd])
    {
      assert Snapshot(known) == old(Snapshot(known))[c := c.Info()];
      assert States(channels) == old(States(channels));
    }

    twostate lemma ChannelChanged(key: string)
      requires old(Shape()) && unchanged(this) && unchanged(poll) && key in channels
      requires forall d <- known :: unchanged(d)
      requires forall other <- channels :: other != key ==> unchanged(channels[other])
      requires forall c <- channels[key].members :: c in known
      ensures Shape() && World() == old(World()).(channels := old(World()).channels[key := channels[key].State()])
    {
      assert Snapshot(known) == old(Snapshot(known));
      assert States(channels) == old(States(channels))[key := channels[key].State()];
    }

    twostate lemma ChannelAdded(key: string, new channel: Channel)
      requires old(Shape()) && unchanged(this`clients) && unchanged(this`nickList) && unchanged(this`known)
      requires unchanged(poll)
      requires key !in old(channels) && channels == old(channels)[key := channel] && channel.name == key
      requires (forall d <- known :: unchanged(d)) && forall other <- old(channels) :: unchanged(old(channels)[other])
      requires forall c <- channel.members :: c in known
      ensures Shape() && World() == old(World()).(channels := old(World()).channels[key := channel.State()])
    {
      assert Snapshot(known) == old(Snapshot(known));
      assert States(channels) == old(States(channels))[key := channel.State()];
    }

    twostate lemma ChannelGone(key: string)
      requires old(Shape()) && unchanged(this`clients) && unchanged(this`nickList) && unchanged(this`known)
      requires unchanged(poll)
      requires key in old(channels) && channels == old(channels) - {key}
      requires (forall d <- known :: unchanged(d))
      requires forall other <- old(channels) :: other != key ==> unchanged(old(channels)[other])
      ensures Shape() && World() == old(World()).(channels := old(World()).channels - {key})
    {
      assert Snapshot(known) == old(Snapshot(known));
      assert States(channels) == old(States(channels)) - {key};
    }

    // -------------------------------------------------------------- tables

    method IsNickTaken(nick: string) returns (taken: bool)
      ensures taken <==> NickTaken(nickList, nick)
    {
      for i := 0 to |nickList|
        invariant forall j :: 0 <= j < i ==> nickList[j].1 != nick
      {
        if nickList[i].1 == nick {
          return true;
        }
      }
      taken := false;
    }

    /** `getClient(nickname)`: the client map is walked by ascending descriptor. */
    method GetClient(nick: string) returns (r: Option<Client>)
      requires Shape()
      ensures r == ByNick(World().info, clients, nick) && (r.Some? ==> r.value in known)
    {
      hide ByNick;
      var rest := clients.Keys;
      var fd := Lowest(rest);
      while fd.Some?
        invariant rest <= clients.Keys && forall other <- clients :: other !in rest ==> clients[other].nick != nick
        invariant match fd
                  case None => forall x: int :: x !in rest
                  case Some(l) => l in rest && forall x <- rest :: l <= x
        decreases |rest|
      {
        if clients[fd.value].nick == nick {
          ByNickIs(World().info, clients, nick, fd.value);
          return Some(clients[fd.value]);
        }
        rest := rest - {fd.value};
        fd := Lowest(rest);
      }
      ByNickIs(World().info, clients, nick, 0);
      r := None;
    }

    /** The loop over the nick table in `closeConnection`. */
    method DropNick(fd: int)
      modifies this`nickList
      ensures nickList == DropEntry(old(nickList), fd)
    {
      hide DropEntry;
      for i := 0 to |nickList|
        invariant nickList == old(nickList) && forall j :: 0 <= j < i ==> nickList[j].0 != fd
      {
        if nickList[i].0 == fd {
          DropEntryAt(nickList, fd, i);
          nickList := nickList[..i] + nickList[i + 1..];
          return;
        }
      }
      DropEntryNone(nickList, fd);
    }

    /** `closeConnection`: poll set, client map, and the first nick entry. */
    method CloseConnection(fd: int, closes: bool)
      requires Shape()
      modifies poll, this`clients, this`nickList
      ensures Shape() && World() == if closes then Close(old(World()), fd) else old(World())
    {
      hide Without, DropEntry;
      if !closes {
        return;
      }
      poll.RemoveFd(fd);
      clients := clients - {fd};
      DropNick(fd);
      assert Snapshot(known) == old(Snapshot(known)) && States(channels) == old(States(channels));
    }

    /** `acceptConnection` and `addNewClient`. */
    method AddNewClient(fd: int, ip: string) returns (c: Client)
      requires Valid() && fd !in clients && fd != listener
      modifies poll, this`clients, this`known
      ensures Valid() && fresh(c) && known == old(known) + {c}
      ensures Step(old(World()), Accept(c, fd, ip)) == Some(World())
    {
      hide Inv, Step, World, States, Shape;
      ghost var w := World();
      View();
      poll.AddFd(fd);
      c := new Client(fd, ip);
      known := known + {c};
      clients := clients[fd := c];
      ClientAdded(c, fd);
      AcceptIs(w, c, fd, ip);
    }

    // -------------------------------------------------------------- the ladder

    method Pass(client: Client, parts: seq<string>)
      requires Shape() && client in known
      modifies client
      ensures Shape() && World() == PassStep(old(World()), client, parts)
    {
      InfoOf(client);
      hide World, Shape;
      if |parts| < 2 || client.auth {
        return;
      }
      if parts[1] == password {
        View();
        client.auth := true;
        SenderChanged(client);
      }
    }

    method Nick(client: Client, parts: seq<string>)
      requires Shape() && client in known
      modifies client, this`nickList
      ensures Shape() && World() == NickStep(old(World()), client, parts)
    {
      InfoOf(client);
      View();
      hide World, Shape, NickTaken, Snapshot, States;
      if !client.auth || |parts| < 2 {
        return;
      }
      var nick := parts[1];
      var taken := IsNickTaken(nick);
      if taken {
        return;
      }
      client.nick := nick;
      client.hasNick := true;
      SenderChanged(client);
      Register(nick, client.fd);
    }

    /** `registerNick`. */
    method Register(nick: string, id: int)
      requires Shape()
      modifies this`nickList
      ensures Shape() && World() == old(World()).(nicks := old(World()).nicks + [(id, nick)])
    {
      nickList := nickList + [(id, nick)];
      assert Snapshot(known) == old(Snapshot(known)) && States(channels) == old(States(channels));
    }

    method User(client: Client, parts: seq<string>)
      requires Shape() && client in known
      modifies client
      ensures Shape() && World() == UserStep(old(World()), client, parts)
    {
      InfoOf(client);
      hide World, Shape, Tokenizer.Join;
      if !client.hasNick || |parts| < 4 || client.user != "" {
        return;
      }
      client.user := parts[1];
      client.ip := parts[2];
      var realname := JoinLeading(parts, 3);
      if realname != "" && realname[0] == ':' {
        realname := realname[1..];
      }
      client.realName := realname;
      client.loged := true;
      SenderChanged(client);
    }

    // -------------------------------------------------------------- channels

    /** Every channel of the map was in it before. */
    twostate predicate FewerChannels()
      reads this
    {
      forall key <- channels :: key in old(channels) && channels[key] == old(channels)[key]
    }

    /** `removeClientFromChannel`. */
    method RemoveClientFromChannel(ghost key: string, channel: Channel, client: Client)
      requires Shape() && key in channels && channels[key] == channel && client in known
      modifies this`channels, channel
      ensures Shape() && FewerChannels()
      ensures World() == old(World()).(channels := LeaveAt(old(World()).info, old(World()).channels, key, client))
    {
      View();
      InfoOf(client);
      ChannelAt(key);
      hide World, Shape, States, Snapshot, RemoveFirst;
      if client !in channel.members {
        return;
      }
      channel.members := EraseFirst(channel.members, client);
      if channel.members == [] {
        channels := channels - {channel.name};
        ChannelGone(key);
      } else {
        if channel.op == client.nick {
          channel.op := channel.members[0].nick;
        }
        ChannelChanged(key);
        InfoOf(channel.members[0]);
      }
    }

    method Join(client: Client, parts: seq<string>)
      requires Shape() && client in known
      modifies this`channels, channels.Values
      ensures Shape() && World() == JoinStep(old(World()), client, parts)
      ensures forall key <- channels ::
              (key in old(channels) && channels[key] == old(channels)[key]) || fresh(channels[key])
    {
      if |parts| < 2 || parts[1] == "" {
        return;
      }
      JoinChannel(client, parts[1], parts);
    }

    /** `joinChannel`. */
    method JoinChannel(client: Client, channelName: string, parts: seq<string>)
      requires Shape() && client in known && |parts| >= 2 && channelName == parts[1]
      modifies this`channels, channels.Values
      ensures Shape() && World() == JoinStep(old(World()), client, parts)
      ensures forall key <- channels ::
              (key in old(channels) && channels[key] == old(channels)[key]) || fresh(channels[key])
    {
      View();
      InfoOf(client);
      hide World, Shape, States, Snapshot;
      var channelPass := if |parts| >= 3 then parts[2] else "";
      if |channelName| < 2 || channelName[0] != '#' {
        return;
      }
      if channelName in channels {
        ChannelAt(channelName);
        var channel := channels[channelName];
        var on := channel.IsUserOnChannel(client);
        if on || channel.key != channelPass || USER_LIMIT <= |channel.members| {
          return;
        }
        channel.members := channel.members + [client];
        ChannelChanged(channelName);
      } else {
        CreateChannel(channelName, channelPass, client);
      }
    }

    /** The branch of `joinChannel` for a new channel; the first member is its operator. */
    method CreateChannel(name: string, key: string, founder: Client)
      requires Shape() && founder in known && name !in channels
      modifies this`channels
      ensures Shape()
      ensures var led := Chan(name, key, "", founder.nick, [founder]);
              World() == old(World()).(channels := old(World()).channels[name := led])
      ensures forall k <- channels :: (k in old(channels) && channels[k] == old(channels)[k]) || fresh(channels[k])
    {
      hide World, Shape, States, Snapshot;
      var channel := new Channel(name);
      channel.members := [founder];
      channel.op := founder.nick;
      channel.key := key;
      channels := channels[name := channel];
      ChannelAdded(name, channel);
    }

    /** `part`; the reply carries the joined words of the line, and so does the result. */
    method Part(client: Client, parts: seq<string>) returns (message: string)
      requires Shape() && client in known
      modifies this`channels, channels.Values
      ensures Shape() && World() == PartStep(old(World()), client, parts) && FewerChannels()
      ensures |parts| > 2 ==> message == StripColon(Tokenizer.Join(parts[2..], " "))
    {
      hide World, Shape, SplitAll, LeaveAt, Tokenizer.Join;
      message := "";
      if |parts| < 2 {
        return;
      }
      var names := SplitString(parts[1], ",");
      if |parts| > 2 {
        message := JoinTrailing(parts, 2);
        message := StripColon(message);
      }
      ghost var w := World();
      View();
      assert names[0..] == names;
      for i := 0 to |names|
        invariant Shape() && FewerChannels() && World() == w.(channels := World().channels)
        invariant PartAll(w.info, w.channels, names, client) == PartAll(w.info, World().channels, names[i..], client)
      {
        View();
        assert names[i..][0] == names[i] && names[i..][1..] == names[i + 1..];
        PartOne(client, names[i]);
      }
    }

    method PartOne(client: Client, name: string)
      requires Shape() && client in known
      modifies this`channels, channels.Values
      ensures Shape() && FewerChannels()
      ensures World() == old(World()).(channels := LeaveAt(old(World()).info, old(World()).channels, name, client))
    {
      View();
      LeaveNone(World().info, World().channels, name, client);
      hide World, Shape, LeaveAt;
      if name in channels {
        ChannelAt(name);
        var on := channels[name].IsUserOnChannel(client);
        if on {
          RemoveClientFromChannel(name, channels[name], client);
        }
      }
    }

    method Topic(client: Client, parts: seq<string>)
      requires Shape() && client in known
      modifies channels.Values
      ensures Shape() && World() == TopicStep(old(World()), client, parts)
    {
      View();
      InfoOf(client);
      hide World, Shape, States, Snapshot, Tokenizer.Join;
      if |parts| <= 2 || parts[1] !in channels {
        return;
      }
      ChannelAt(parts[1]);
      var channel := channels[parts[1]];
      if channel.op != client.nick {
        return;
      }
      var newTopic := JoinTrailing(parts, 2);
      channel.topic := newTopic;
      ChannelChanged(parts[1]);
    }

    /** `kick`; false: the channel was deleted under the rest of the handler. */
    method Kick(client: Client, parts: seq<string>) returns (ok: bool, reason: string)
      requires Shape() && client in known
      modifies this`channels, channels.Values
      ensures ok == KickStep(old(World()), client, parts).Some?
      ensures ok ==> Shape() && World() == KickStep(old(World()), client, parts).value && FewerChannels()
      ensures |parts| > 3 ==> reason == Tokenizer.Join(parts[3..], " ")
    {
      View();
      InfoOf(client);
      hide World, Shape, States, Snapshot, ByNick, Tokenizer.Join, Leave, LeaveAt, RemoveFirst;
      ok, reason := true, "No reason specified";
      if |parts| > 3 {
        reason := JoinLeading(parts, 3);
      }
      if |parts| < 3 || parts[1] !in channels {
        return;
      }
      ChannelAt(parts[1]);
      var channel := channels[parts[1]];
      if channel.op != client.nick {
        return;
      }
      var target := GetClient(parts[2]);
      if target.None? {
        return;
      }
      ok := Expel(parts[1], channel, target.value);
    }

    /** The end of `kick`: a member is removed, and the channel is used once more. */
    method Expel(key: string, channel: Channel, target: Client) returns (ok: bool)
      requires Shape() && key in channels && channels[key] == channel && target in known
      modifies this`channels, channel
      ensures Shape() && FewerChannels()
      ensures var w := old(World());
              if target !in w.channels[key].members then ok && World() == w
              else ok == Leave(w.info, w.channels[key], target).Some?
                   && World() == w.(channels := LeaveAt(w.info, w.channels, key, target))
    {
      View();
      ChannelAt(key);
      LeaveNone(World().info, World().channels, key, target);
      hide World, Shape, States, Snapshot, Leave, LeaveAt;
      var on := channel.IsUserOnChannel(target);
      if !on {
        return true;
      }
      LeaveOutcome(World().info, World().channels, key, target);
      RemoveClientFromChannel(key, channel, target);
      Keys();
      ok := key in channels;
    }

    // -------------------------------------------------------------- talking

    /** `getClient(clientFind(nick))`. */
    method FindTarget(nick: string) returns (r: Option<Client>)
      requires Shape()
      ensures r == Resolve(World(), nick) && (r.Some? ==> r.value in known)
    {
      View();
      hide ByNick, World;
      var found := GetClient(nick);
      r := GetClient(if found.Some? then nick else "");
    }

    /** `privmsg`: the clients it sends to, in order, and the text; false: a lookup found nobody. */
    method Privmsg(client: Client, parts: seq<string>, now: string)
      returns (ok: bool, targets: seq<Client>, message: string)
      requires Shape() && client in known
      ensures ok == Targets(World(), client, parts).Some? && (ok ==> Targets(World(), client, parts) == Some(targets))
      ensures forall t <- targets :: t in known
      ensures |parts| >= 3 ==>
                message == var text := StripColon(Tokenizer.Join(parts[2..], " "));
                           if client.nick == botNick then text
                           else Bot.Censor(Bot.AfterBang(client.nick + "!" + text), Bot.BLACKLIST)
    {
      View();
      InfoOf(client);
      hide World, Shape, States, Snapshot, Resolve, Audience, Tokenizer.Join, Bot.Censor, Bot.AfterBang;
      ok, targets, message := true, [], "";
      if |parts| < 3 {
        return;
      }
      message := PrivmsgText(client.nick, botNick, parts, now);
      if parts[1] == "" || parts[1][0] != '#' {
        var target := FindTarget(parts[1]);
        if target.Some? {
          targets := [target.value];
        }
      } else if parts[1] in channels {
        ChannelAt(parts[1]);
        var channel := channels[parts[1]];
        var on := channel.IsUserOnChannel(client);
        if on || botNick == client.nick {
          ok, targets := Listeners(client, channel.members);
        }
      }
    }

    /** The loop over the nicks of a channel's members. */
    method Listeners(client: Client, members: seq<Client>) returns (ok: bool, targets: seq<Client>)
      requires Shape() && client in known && forall c <- members :: c in known
      ensures ok == Audience(World(), client, members).Some?
      ensures (ok ==> Audience(World(), client, members) == Some(targets)) && forall t <- targets :: t in known
    {
      View();
      InfoOf(client);
      hide World, Shape, States, Snapshot, Resolve, After;
      targets := [];
      AfterStart(Audience(World(), client, members));
      assert members[0..] == members;
      for i := 0 to |members|
        invariant Audience(World(), client, members) == After(targets, Audience(World(), client, members[i..]))
        invariant forall t <- targets :: t in known
      {
        assert members[i..][1..] == members[i + 1..];
        InfoOf(members[i]);
        ghost var before := targets;
        var target := FindTarget(members[i].nick);
        if target.None? {
          AfterNone(targets);
          return false, targets;
        }
        InfoOf(target.value);
        AudienceNext(World(), client, members[i..]);
        if target.value.fd != client.fd && target.value.nick != botNick {
          targets := targets + [target.value];
          AfterRegroup(before, target.value, Audience(World(), client, members[i + 1..]));
        } else {
          AfterStart(Audience(World(), client, members[i + 1..]));
        }
      }
      ok := true;
      AfterAll(targets, members[|members|..]);
    }

    /** The text of a PRIVMSG to each of its targets, in order. */
    method Send(client: Client, parts: seq<string>, targets: seq<Client>, message: string)
      returns (sent: seq<(int, string)>)
      requires Shape() && client in known && forall t <- targets :: t in known
      ensures sent == if |parts| < 3 then []
                      else Mail(World().info, targets,
                                ":" + client.nick + " PRIVMSG " + parts[1] + " :" + message + CRLF)
    {
      hide World, Snapshot, States;
      sent := [];
      if |parts| >= 3 {
        var text := ":" + client.nick + " PRIVMSG " + parts[1] + " :" + message + CRLF;
        for i := 0 to |targets|
          invariant sent == Mail(World().info, targets[..i], text)
        {
          InfoOf(targets[i]);
          assert targets[..i + 1] == targets[..i] + [targets[i]];
          sent := sent + [(targets[i].fd, text)];
        }
        assert targets[..|targets|] == targets;
      }
    }

    /** A whole PRIVMSG. */
    method Talk(client: Client, parts: seq<string>, now: string) returns (ok: bool, sent: seq<(int, string)>)
      requires Shape() && client in known
      ensures ok == Targets(World(), client, parts).Some? && (ok ==> sent == Spread(World(), client, parts))
    {
      View();
      InfoOf(client);
      hide World, Shape, States, Snapshot, Targets, Bot.Censor, Bot.AfterBang, Spread;
      sent := [];
      var targets, message;
      ok, targets, message := Privmsg(client, parts, now);
      if ok {
        SpreadIs(World(), client, parts, targets);
        sent := Send(client, parts, targets, message);
      }
    }

    /** `quit`: the text, the entries of the client map that get it, and the closing step. */
    method Quit(client: Client, parts: seq<string>, closes: bool, botSocket: int)
      returns (msg: string, told: seq<int>, sent: seq<(int, string)>)
      requires Shape() && client in known && |parts| > 0
      modifies poll, this`clients, this`nickList
      ensures Shape() && World() == if closes then Close(old(World()), client.fd) else old(World())
      ensures msg == Tokenizer.Join(parts[1..], " ")
      ensures forall fd :: fd in told
                <==> fd in old(clients) && old(clients)[fd].fd != client.fd && client.fd != botSocket
      ensures forall i, j :: 0 <= i < j < |told| ==> told[i] < told[j]
      ensures sent == Farewells(old(World()), client, parts, botSocket)
    {
      hide World, Shape, Close, Tokenizer.Join, Farewells;
      msg := "";
      if |parts| > 1 {
        msg := JoinLeading(parts, 1);
      } else {
        assert parts[1..] == [];
        JoinNothing(" ");
      }
      told, sent := BidFarewell(client, parts, msg, botSocket);
      CloseConnection(client.fd, closes);
    }

    /** The prefix and the loop of `quit`. */
    method BidFarewell(client: Client, ghost parts: seq<string>, msg: string, botSocket: int)
      returns (told: seq<int>, sent: seq<(int, string)>)
      requires Shape() && client in known && |parts| > 0 && msg == Tokenizer.Join(parts[1..], " ")
      ensures forall fd :: fd in told <==> fd in clients && clients[fd].fd != client.fd && client.fd != botSocket
      ensures forall i, j :: 0 <= i < j < |told| ==> told[i] < told[j]
      ensures sent == Farewells(World(), client, parts, botSocket)
    {
      InfoOf(client);
      hide World, Shape, Tokenizer.Join, Prefix, Hearers, InOrder, Farewells, FdAt;
      var prefix := client.GetPrefix();
      told, sent := Farewell(client, " :" + prefix + " QUIT :Quit: " + msg + CRLF, botSocket);
      ToldIs(client, botSocket, told);
      FarewellsAre(World(), client, parts, botSocket, told, sent);
    }

    /** The loop over the map meets its keys in order. */
    lemma ToldIs(client: Client, botSocket: int, told: seq<int>)
      requires Shape() && client in known && Ascending(told)
      requires forall fd :: fd in told <==> fd in clients && clients[fd].fd != client.fd && client.fd != botSocket
      ensures InOrder(Hearers(World(), client, botSocket)) == told
      ensures forall fd <- clients :: FdAt(World(), fd) == clients[fd].fd
    {
      View();
      InfoOf(client);
      forall fd | fd in clients ensures Of(World().info, clients[fd]).fd == clients[fd].fd {
        InfoOf(clients[fd]);
      }
      hide World, Shape, InOrder;
      InOrderIs(Hearers(World(), client, botSocket), told);
    }

    /** The loop of `quit` over a copy of the client map, by ascending descriptor. */
    method Farewell(client: Client, text: string, botSocket: int) returns (told: seq<int>, sent: seq<(int, string)>)
      ensures forall fd :: fd in told <==> fd in clients && clients[fd].fd != client.fd && client.fd != botSocket
      ensures forall i, j :: 0 <= i < j < |told| ==> told[i] < told[j]
      ensures |sent| == |told| && forall i :: 0 <= i < |told| ==> told[i] in clients
      ensures forall i :: 0 <= i < |told| ==> sent[i] == (clients[told[i]].fd, text)
    {
      told, sent := [], [];
      var rest := clients.Keys;
      var fd := Lowest(rest);
      while fd.Some?
        invariant rest <= clients.Keys
        invariant match fd
                  case None => forall x: int :: x !in rest
                  case Some(l) => l in rest && forall x <- rest :: l <= x
        invariant forall x :: x in told
                    <==> x in clients && x !in rest && clients[x].fd != client.fd && client.fd != botSocket
        invariant forall i :: 0 <= i < |told| ==> told[i] in told && forall y <- rest :: told[i] < y
        invariant forall i, j :: 0 <= i < j < |told| ==> told[i] < told[j]
        invariant |sent| == |told| && forall i :: 0 <= i < |told| ==> told[i] in clients
        invariant forall i :: 0 <= i < |told| ==> sent[i] == (clients[told[i]].fd, text)
        decreases |rest|
      {
        if client.fd != clients[fd.value].fd && client.fd != botSocket {
          told, sent := told + [fd.value], sent + [(clients[fd.value].fd, text)];
        }
        rest := rest - {fd.value};
        fd := Lowest(rest);
      }
    }

    // -------------------------------------------------------------- one line, one received text

    /** The commands that `handleCommand` keeps for clients that have logged in. */
    method HandleMember(client: Client, parts: seq<string>, closes: bool, now: string, botSocket: int)
      returns (ok: bool, sent: seq<(int, string)>)
      requires Shape() && client in known && |parts| > 0 && client.auth && client.loged
      requires !Says(parts, "CAP") && !Says(parts, "PASS") && !Says(parts, "NICK") && !Says(parts, "USER")
      modifies this`clients, this`nickList, this`channels, channels.Values, poll
      ensures ok == Handle(old(World()), client, parts, closes).Some?
      ensures ok ==> Shape() && World() == Handle(old(World()), client, parts, closes).value
      ensures ok ==> sent == LettersBy(old(World()), client, parts, botSocket)
      ensures ok ==> forall key <- channels ::
              (key in old(channels) && channels[key] == old(channels)[key]) || fresh(channels[key])
    {
      InfoOf(client);
      hide World, Shape, States, Snapshot, Says, PassStep, NickStep, UserStep, JoinStep, PartStep, TopicStep, KickStep;
      hide Targets, Close, LettersBy, Spread, Farewells, Spoken;
      ok, sent := true, [];
      LettersChosen(World(), client, parts, botSocket);
      if Says(parts, "JOIN") {
        Join(client, parts);
      } else if Says(parts, "PRIVMSG") {
        ok, sent := Talk(client, parts, now);
      } else if Says(parts, "LIST") {
      } else if Says(parts, "PART") {
        var message := Part(client, parts);
      } else if Says(parts, "TOPIC") {
        Topic(client, parts);
      } else if Says(parts, "KICK") {
        var reason;
        ok, reason := Kick(client, parts);
      } else if Says(parts, "QUIT") {
        var msg, told;
        msg, told, sent := Quit(client, parts, closes, botSocket);
      }
    }

    /** `handleCommand`; false: the program does not survive. */
    method HandleCommand(client: Client, parts: seq<string>, closes: bool, now: string, botSocket: int)
      returns (ok: bool, sent: seq<(int, string)>)
      requires Shape() && client in known && |parts| > 0
      modifies this`clients, this`nickList, this`channels, channels.Values, client, poll
      ensures ok == Handle(old(World()), client, parts, closes).Some?
      ensures ok ==> Shape() && World() == Handle(old(World()), client, parts, closes).value
      ensures ok ==> sent == LettersBy(old(World()), client, parts, botSocket)
      ensures ok ==> forall key <- channels ::
              (key in old(channels) && channels[key] == old(channels)[key]) || fresh(channels[key])
    {
      InfoOf(client);
      hide World, Shape, States, Snapshot, Says, PassStep, NickStep, UserStep, JoinStep, PartStep, TopicStep, KickStep;
      hide Targets, Close, LettersBy;
      ok, sent := true, [];
      LettersChosen(World(), client, parts, botSocket);
      if Says(parts, "CAP") {
      } else if Says(parts, "PASS") {
        Pass(client, parts);
      } else if Says(parts, "NICK") {
        Nick(client, parts);
      } else if Says(parts, "USER") {
        User(client, parts);
      } else if client.auth && client.loged {
        ok, sent := HandleMember(client, parts, closes, now, botSocket);
      }
    }

    /** `commandParser` for the client of a descriptor; false also when a QUIT removed the client before. */
    method HandleLine(fd: int, line: string, closes: bool, now: string, botSocket: int)
      returns (ok: bool, sent: seq<(int, string)>)
      requires Valid()
      modifies this`clients, this`nickList, this`channels, channels.Values, known, poll
      ensures ok == LineStep(old(World()), fd, line, closes).Some?
      ensures ok ==> Valid() && World() == LineStep(old(World()), fd, line, closes).value
      ensures ok ==> sent == LettersOf(old(World()), fd, line, botSocket)
      ensures ok ==> forall key <- channels ::
              (key in old(channels) && channels[key] == old(channels)[key]) || fresh(channels[key])
    {
      View();
      ghost var w := World();
      sent := [];
      if fd !in clients {
        return false, [];
      }
      assert clients[fd] in known;
      hide World, Shape, Inv, CommandParts, Handle, LettersBy;
      ok := true;
      NoParts(w, clients[fd], botSocket);
      var parts := CommandParser(line);
      if parts != [] {
        ok, sent := HandleCommand(clients[fd], parts, closes, now, botSocket);
      }
      if ok {
        LineInv(w, fd, line, closes);
      }
    }

    /** `handleClientMessage`: a connection that ended is closed, else every complete line is handled, in order. */
    method HandleClientMessage(fd: int, got: Reception, closes: bool, now: string, botSocket: int)
      returns (ok: bool, sent: seq<(int, string)>)
      requires Valid() && fd != listener
      modifies this`clients, this`nickList, this`channels, channels.Values, known, poll
      ensures ok == Serve(old(World()), fd, got, closes).Some?
      ensures ok ==> Valid() && World() == Serve(old(World()), fd, got, closes).value
      ensures ok ==> sent == if got.Ended? then [] else RunLetters(old(World()), fd, Lines(got.text), closes, botSocket)
      ensures ok ==> forall key <- channels ::
              (key in old(channels) && channels[key] == old(channels)[key]) || fresh(channels[key])
    {
      hide World, Shape, Inv, Lines, LineStep, Close, RunLines, RunLetters;
      ghost var w := World();
      match got {
        case Ended =>
          View();
          CloseInv(w, fd);
          CloseConnection(fd, closes);
          ok, sent := true, [];
        case Received(text) =>
          ok, sent := HandleText(fd, text, closes, now, botSocket);
      }
    }

    /** The framing loops of `handleClientMessage`. */
    method HandleText(fd: int, received: string, closes: bool, now: string, botSocket: int)
      returns (ok: bool, sent: seq<(int, string)>)
      requires Valid()
      modifies this`clients, this`nickList, this`channels, channels.Values, known, poll
      ensures ok == RunLines(old(World()), fd, Lines(received), closes).Some?
      ensures ok ==> Valid() && World() == RunLines(old(World()), fd, Lines(received), closes).value
      ensures ok ==> sent == RunLetters(old(World()), fd, Lines(received), closes, botSocket)
      ensures ok ==> forall key <- channels ::
              (key in old(channels) && channels[key] == old(channels)[key]) || fresh(channels[key])
    {
      hide World, Shape, Inv, Lines, LineStep, LettersOf, RunLetters;
      ghost var w := World();
      var lines := Frame(received);
      ok, sent := true, [];
      assert lines[0..] == lines;
      for i := 0 to |lines|
        invariant Valid() && RunLines(w, fd, lines, closes) == RunLines(World(), fd, lines[i..], closes)
        invariant RunLetters(w, fd, lines, closes, botSocket)
               == sent + RunLetters(World(), fd, lines[i..], closes, botSocket)
        invariant forall key <- channels ::
                  (key in old(channels) && channels[key] == old(channels)[key]) || fresh(channels[key])
      {
        assert lines[i..][0] == lines[i] && lines[i..][1..] == lines[i + 1..];
        ghost var before := World();
        var more;
        ok, more := HandleLine(fd, lines[i], closes, now, botSocket);
        if !ok {
          return;
        }
        LettersNext(before, fd, lines[i..], closes, botSocket, sent);
        sent := sent + more;
      }
      LettersNone(World(), fd, lines[|lines|..], closes, botSocket, sent);
    }

    // -------------------------------------------------------------- the event loop

    /** `acceptConnection`. */
    method AcceptConnection(accepted: Option<(int, string)>) returns (newcomer: Option<Client>)
      requires Valid() && (accepted.Some? ==> accepted.value.0 !in clients && accepted.value.0 != listener)
      modifies poll, this`clients, this`known
      ensures Valid() && World() == Admit(old(World()), accepted, newcomer) && newcomer.Some? == accepted.Some?
      ensures newcomer.Some? ==> fresh(newcomer.value)
      ensures known == old(known) + if newcomer.Some? then {newcomer.value} else {}
    {
      hide World, Shape, Inv;
      newcomer := None;
      if accepted.Some? {
        var c := AddNewClient(accepted.value.0, accepted.value.1);
        newcomer := Some(c);
      }
    }

    /** The body of the loop of `run`, in a round that started in `w`. */
    method Turn(ready: set<int>, accepted: Option<(int, string)>, inputs: int -> Reception, closes: int -> bool,
                now: string, botSocket: int, i: nat, before: seq<int>, welcomed: Option<Client>,
                ghost w: IrcState.World<Client>, ghost closing: set<int>, ghost p: nat)
      returns (ok: bool, handled: seq<int>, newcomer: Option<Client>, ghost closed: set<int>, ghost q: nat)
      requires Valid() && i < |poll.fds|
      requires InLoop(w, World(), ready, accepted, welcomed, inputs, closes, before, closing, i, p)
      modifies this, poll, known, channels.Values
      ensures ok == Handlers(w, handled, accepted, newcomer, inputs, closes).Some?
      ensures ok ==> Valid() && InLoop(w, World(), ready, accepted, newcomer, inputs, closes, handled, closed, i + 1, q)
      ensures ok ==> p < q <= |w.fds| || (q == p && poll.fds == old(poll.fds))
      ensures ok ==> fresh(channels.Values - old(channels.Values)) && fresh(known - old(known))
    {
      ghost var v := World();
      View();
      hide World, Shape, Inv, Handlers, Midway, AcceptsNew, Serve, Admit;
      ok, handled, newcomer, closed, q := true, before, welcomed, closing, p;
      var fd := poll.fds[i];
      if fd in ready {
        MidwayAt(w, v, ready, accepted, before, closing, i, p);
        HandlersNext(w, before, fd, accepted, newcomer, inputs, closes);
        handled := before + [fd];
        if fd == listener {
          HandlersNone(w, accepted, welcomed, inputs, closes);
          AcceptApart(w, ready, accepted);
          assert forall c <- v.info :: c in known;
          newcomer := AcceptConnection(accepted);
          assert newcomer.Some? ==> newcomer.value !in w.info;
          HandlersNone(w, accepted, newcomer, inputs, closes);
          HandlersNext(w, [], fd, accepted, newcomer, inputs, closes);
          MidwayAdmit(w, ready, accepted, newcomer, closing, i);
          q := 1;
          assert handled == [fd];
        } else {
          var sent;
          ok, sent := HandleClientMessage(fd, inputs(fd), closes(fd), now, botSocket);
          if ok {
            ServeCloses(v, fd, inputs(fd), closes(fd));
            closed, q := MidwayServe(w, v, World(), ready, accepted, before, closing, i, p);
          }
        }
      } else {
        q := MidwayPass(w, v, ready, accepted, before, closing, i, p);
      }
    }

    /**
     * The `for` loop of `run`: one round over the poll vector, which its handlers change on the way. What `poll`
     * found ready and what `accept`, `recv` and `close` answer are inputs; false: the program does not survive.
     */
    method Round(ready: set<int>, accepted: Option<(int, string)>, inputs: int -> Reception, closes: int -> bool,
                 now: string, botSocket: int)
      returns (ok: bool, handled: seq<int>, newcomer: Option<Client>)
      requires Valid() && AcceptsNew(World(), ready, accepted)
      modifies this, poll, known, channels.Values
      ensures ok == Handlers(old(World()), handled, accepted, newcomer, inputs, closes).Some?
      ensures ok ==> Valid() && World() == Handlers(old(World()), handled, accepted, newcomer, inputs, closes).value
      ensures ok ==> Walked(old(World()), World(), ready, accepted, handled)
      ensures ok ==> Orderly(old(World()), handled, accepted, newcomer)
      ensures ok ==> fresh(channels.Values - old(channels.Values)) && fresh(known - old(known))
    {
      hide World, Shape, Inv, Handlers, InLoop, AcceptsNew, Orderly, Walked;
      ghost var w, p, closing := World(), 0, {};
      ok, handled, newcomer := true, [], None;
      LoopStarts<Client>(w, ready, accepted, inputs, closes);
      View();
      var i := 0;
      while i < |poll.fds|
        invariant Valid() && InLoop(w, World(), ready, accepted, newcomer, inputs, closes, handled, closing, i, p)
        invariant p <= |w.fds| && fresh(channels.Values - old(channels.Values)) && fresh(known - old(known))
        decreases |w.fds| - p, |poll.fds| - i
      {
        ok, handled, newcomer, closing, p :=
          Turn(ready, accepted, inputs, closes, now, botSocket, i, handled, newcomer, w, closing, p);
        if !ok {
          return;
        }
        i := i + 1;
      }
      View();
      LoopEnds(w, World(), ready, accepted, newcomer, inputs, closes, handled, closing, i, p);
    }

    /**
     * The `while` loop of `run` for `n` rounds, whatever the kernel does in each; false: the program does not survive.
     * The ghost results are the states between the rounds, whom each handled and welcomed, and all events.
     */
    method Run(kernel: (nat, seq<int>) -> Turnout, n: nat, now: string, botSocket: int)
      returns (ok: bool, ghost ws: seq<IrcState.World<Client>>, ghost turns: seq<seq<int>>,
               ghost newcomers: seq<Option<Client>>, ghost vs: seq<IrcState.World<Client>>,
               ghost es: seq<Event<Client>>)
      requires Valid() && Fair(kernel)
      modifies this, poll, known, channels.Values
      ensures ok ==> Valid() && Loops(ws, kernel, turns) && |turns| == n
      ensures ok ==> ws[0] == old(World()) && ws[n] == World()
      ensures ok ==> Leads(old(World()), vs, es, World())
      ensures ok ==> |ws| == |turns| + 1 && |newcomers| == |turns|
                     && es == LoopEvents(listener, ws, kernel, turns, newcomers)
    {
      hide World, Shape, Inv, Handlers, Orderly, Walked, Loops, Leads, RoundEvents, LoopEvents;
      ghost var w := World();
      ok, ws, turns, newcomers, vs, es := true, [w], [], [], [w], [];
      LoopEventsNone(listener, w, kernel);
      LoopsNone(w, kernel);
      NoEvents(w);
      var k := 0;
      while k < n
        invariant k <= n && Valid() && Loops(ws, kernel, turns) && |turns| == k && |ws| == k + 1
        invariant ws[0] == w && ws[k] == World() && Leads(w, vs, es, World())
        invariant |newcomers| == k && es == LoopEvents(listener, ws, kernel, turns, newcomers)
        invariant fresh(channels.Values - old(channels.Values)) && fresh(known - old(known))
      {
        View();
        ghost var v := World();
        var t := kernel(k, poll.fds);
        var handled, newcomer;
        ok, handled, newcomer := Round(t.ready, t.accepted, t.inputs, t.closes, now, botSocket);
        if !ok {
          return;
        }
        LoopsOn(ws, kernel, turns, World(), handled);
        ghost var us, fs := RoundIsRun(v, handled, t.accepted, newcomer, t.inputs, t.closes);
        LeadsThen(w, vs, es, v, us, fs, World());
        LoopEventsOn(listener, ws, kernel, turns, newcomers, World(), handled, newcomer);
        ws, turns, newcomers := ws + [World()], turns + [handled], newcomers + [newcomer];
        vs, es := vs + us[1..], es + fs;
        k := k + 1;
      }
    }
  }

  lemma {:induction false} DropEntryAt(nicks: seq<(int, string)>, fd: int, i: nat)
    requires i < |nicks| && nicks[i].0 == fd && forall j :: 0 <= j < i ==> nicks[j].0 != fd
    ensures DropEntry(nicks, fd) == nicks[..i] + nicks[i + 1..]
  {
    if i > 0 {
      DropEntryAt(nicks[1..], fd, i - 1);
      assert nicks[..i] == [nicks[0]] + nicks[1..][..i - 1] && nicks[1..][i..] == nicks[i + 1..];
    }
  }

  lemma {:induction false} DropEntryNone(nicks: seq<(int, string)>, fd: int)
    requires forall j :: 0 <= j < |nicks| ==> nicks[j].0 != fd
    ensures DropEntry(nicks, fd) == nicks
  {
    if nicks != [] {
      DropEntryNone(nicks[1..], fd);
    }
  }

  lemma AcceptIs<Id>(w: World<Id>, c: Id, fd: int, ip: string)
    requires Inv(w) && c !in w.info && fd !in w.clients && fd != w.listener
    ensures var w' := w.(info := w.info[c := Newcomer(fd, ip)], clients := w.clients[fd := c], fds := w.fds + [fd]);
            Step(w, Accept(c, fd, ip)) == Some(w') && Inv(w')
  {
    AcceptInv(w, c, fd, ip);
  }

  lemma LeaveNone<Id>(info: map<Id, ClientInfo>, channels: map<string, Chan<Id>>, key: string, c: Id)
    ensures key !in channels || c !in channels[key].members ==> LeaveAt(info, channels, key, c) == channels
  {
  }

  lemma LeaveOutcome<Id>(info: map<Id, ClientInfo>, channels: map<string, Chan<Id>>, key: string, c: Id)
    requires key in channels && channels[key].name == key && c in channels[key].members
    ensures Leave(info, channels[key], c).None? <==> key !in LeaveAt(info, channels, key, c)
  {
    hide Leave;
  }

  lemma AudienceNext<Id>(w: IrcState.World<Id>, c: Id, members: seq<Id>)
    requires members != [] && Resolve(w, Of(w.info, members[0]).nick).Some?
    ensures var t := Resolve(w, Of(w.info, members[0]).nick).value;
            var one := if Of(w.info, t).fd != Of(w.info, c).fd && Of(w.info, t).nick != w.botNick then [t] else [];
            Audience(w, c, members) == After(one, Audience(w, c, members[1..]))
  {
    hide Resolve;
  }
}
