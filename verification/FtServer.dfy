/** The classes of the 42-Ft_irc server: vectors of client references, updated in place. */
module FtServer {
  import opened Lists
  import opened Text
  import opened Tokenizer
  import opened FtParser
  import opened FtState
  import opened FtChannel
  import opened FtSteps
  import opened FtTalk
  import opened FtLetters
  import opened FtEffects
  import opened FtInvariant

  class Client {
    const fd: int
    const host: string
    var nick: string
    var user: string
    var realName: string
    var password: string
    var login: bool
    var taken: bool

    constructor (fd: int, host: string)
      ensures Info() == Newcomer(fd, host)
    {
      this.fd, this.host := fd, host;
      nick, user, realName, password := "*", "*", "*", "*";
      login, taken := false, false;
    }

    ghost function Info(): ClientInfo
      reads this
    {
      ClientInfo(fd, host, nick, user, realName, password, login, taken)
    }

    /** `Client::login`; false stands for PasswordMismatchException. */
    method Login(serverPassword: string) returns (ok: bool)
      modifies this`login
      ensures ok <==> password == serverPassword
      ensures login == (old(login) || (ok && !taken))
    {
      if serverPassword == password {
        if !taken {
          login := true;
        }
        ok := true;
      } else {
        ok := false;
      }
    }

    /** The part of NICK that changes the client; false: the exception is not caught. */
    method Rename(nick: string, serverPassword: string) returns (ok: bool)
      modifies this
      ensures ok == Renamed(old(Info()), nick, serverPassword).Some?
      ensures ok ==> Info() == Renamed(old(Info()), nick, serverPassword).value
    {
      this.nick := nick;
      ok := true;
      if taken {
        taken := false;
        ok := Login(serverPassword);
      }
    }

    /** The part of USER that changes the client; false stands for PasswordMismatchException. */
    method Register(words: seq<string>, serverPassword: string) returns (ok: bool)
      requires |words| >= 5
      modifies this
      ensures ok <==> old(password) == serverPassword
      ensures var user := UserInfo(words[1], if words[4] == "" then "" else words[4][1..]);
              Info() == Registered(old(Info()), user, serverPassword)
    {
      user := words[1];
      realName := if words[4] == "" then "" else words[4][1..];
      ok := Login(serverPassword);
    }
  }

  /** What is known of a set of clients. */
  ghost function Snapshot(known: set<Client>): map<Client, ClientInfo>
    reads known
  {
    map c | c in known :: c.Info()
  }

  /** `getClient(int)`, `getOperator(int)`: a linear search. */
  method SearchFd(ghost known: set<Client>, s: seq<Client>, fd: int) returns (r: Option<Client>)
    requires forall c <- s :: c in known
    ensures r == ByFd(Snapshot(known), s, fd)
  {
    for i := 0 to |s|
      invariant ByFd(Snapshot(known), s, fd) == ByFd(Snapshot(known), s[i..], fd)
    {
      if s[i].fd == fd {
        return Some(s[i]);
      }
    }
    r := None;
  }

  /** `getClient(string)`, `getOperator(string)`, `getInvite(string)`, `getClientByNickName`. */
  method SearchNick(ghost known: set<Client>, s: seq<Client>, nick: string) returns (r: Option<Client>)
    requires forall c <- s :: c in known
    ensures r == ByNick(Snapshot(known), s, nick)
  {
    for i := 0 to |s|
      invariant ByNick(Snapshot(known), s, nick) == ByNick(Snapshot(known), s[i..], nick)
    {
      if s[i].nick == nick {
        return Some(s[i]);
      }
    }
    r := None;
  }

  /** `getBan(string)`. */
  method SearchHost(ghost known: set<Client>, s: seq<Client>, host: string) returns (r: Option<Client>)
    requires forall c <- s :: c in known
    ensures r == ByHost(Snapshot(known), s, host)
  {
    for i := 0 to |s|
      invariant ByHost(Snapshot(known), s, host) == ByHost(Snapshot(known), s[i..], host)
    {
      if s[i].host == host {
        return Some(s[i]);
      }
    }
    r := None;
  }

  /** `Channel::getClients(string)`. */
  method FilterHost(ghost known: set<Client>, s: seq<Client>, host: string) returns (r: seq<Client>)
    requires forall c <- s :: c in known
    ensures r == WithHost(Snapshot(known), s, host) && forall c <- r :: c in known && c.host == host
  {
    r := [];
    assert s[0..] == s;
    for i := 0 to |s|
      invariant forall c <- r :: c in known && c.host == host
      invariant r + WithHost(Snapshot(known), s[i..], host) == WithHost(Snapshot(known), s, host)
    {
      assert s[i..][0] == s[i] && s[i..][1..] == s[i + 1..];
      Rebracket(r, [s[i]], WithHost(Snapshot(known), s[i + 1..], host));
      if s[i].host == host {
        r := r + [s[i]];
      }
    }
  }

  class Channel {
    const name: string
    var clients: seq<Client>
    var operators: seq<Client>
    var bans: seq<Client>
    var invites: seq<Client>
    var limit: nat
    var inviteOnly: bool
    var password: string
    var topic: string

    constructor (name: string)
      ensures State() == NewChan(name)
    {
      this.name := name;
      clients, operators, bans, invites := [], [], [], [];
      limit, inviteOnly, password, topic := 0, false, "", "";
    }

    ghost function State(): Chan<Client>
      reads this
    {
      Chan(name, clients, operators, bans, invites, limit, inviteOnly, password, topic)
    }

    /** Every reference the channel holds is to a known client. */
    ghost predicate Within(known: set<Client>)
      reads this
    {
      && (forall c <- clients :: c in known) && (forall c <- operators :: c in known)
      && (forall c <- bans :: c in known) && (forall c <- invites :: c in known)
    }

    /** `addClient`; false stands for one of its exceptions. */
    method AddClient(ghost known: set<Client>, client: Client) returns (joined: bool)
      requires Within(known) && client in known
      modifies this
      ensures Within(known)
      ensures match Admit(Snapshot(known), old(State()), client)
              case Joined(ch) => joined && State() == ch
              case _ => !joined && State() == old(State())
    {
      hide ByHost, ByNick;
      var ban := SearchHost(known, bans, client.host);
      if ban.Some? {
        return false;
      }
      if limit != 0 && |clients| == limit {
        return false;
      }
      var invite := SearchNick(known, invites, client.nick);
      if inviteOnly && invite.None? {
        return false;
      }
      if |clients| == 0 {
        operators := operators + [client];
      }
      clients := clients + [client];
      joined := true;
    }

    /** `removeClient`, on a pointer that may be null. */
    method RemoveClient(ghost known: set<Client>, client: Option<Client>)
      requires Within(known) && (client.Some? ==> client.value in known)
      modifies this
      ensures Within(known)
      ensures State() == DropOption(Snapshot(known), old(State()), client)
    {
      hide ByNick, RemoveFirst;
      if client.Some? && client.value in clients {
        var c := client.value;
        var op := SearchNick(known, operators, c.nick);
        if op.Some? {
          operators := EraseFirst(operators, c);
        }
        clients := EraseFirst(clients, c);
      }
    }

    /** `addOperator`, and AlreadyOperatorException for a client that is one. */
    method AddOperator(ghost known: set<Client>, client: Client)
      requires Within(known) && client in known
      modifies this`operators
      ensures Within(known)
      ensures operators == if client in old(operators) then old(operators) else old(operators) + [client]
    {
      var isOperator := false;
      for i := 0 to |operators|
        invariant !isOperator && client !in operators[..i]
      {
        if operators[i] == client {
          isOperator := true;
          break;
        }
      }
      if !isOperator {
        operators := operators + [client];
      }
    }

    /** `addBan`; false stands for AlreadyBanException. */
    method AddBan(ghost known: set<Client>, client: Client) returns (banned: bool)
      requires Within(known) && client in known
      modifies this
      ensures Within(known)
      ensures match Ban(Snapshot(known), old(State()), client)
              case Some(ch) => banned && State() == ch
              case None => !banned && State() == old(State())
    {
      var ban := SearchHost(known, bans, client.host);
      if ban.Some? {
        return false;
      }
      bans := bans + [client];
      RemoveClient(known, Some(client));
      banned := true;
    }

    /** `removeBan`. */
    method RemoveBan(ghost known: set<Client>, client: Client)
      requires Within(known) && client in known
      modifies this
      ensures Within(known)
      ensures State() == match Unban(Snapshot(known), old(State()), client)
                         case Some(ch) => ch
                         case None => old(State())
    {
      hide ByHost, RemoveFirst;
      var ban := SearchHost(known, bans, client.host);
      if ban.Some? {
        bans := EraseFirst(bans, ban.value);
      }
    }

    /** `setLimit`: an `int` stored in a `size_t`. */
    method SetLimit(n: Int32)
      modifies this`limit
      ensures limit == LimitOf(n)
    {
      limit := if n >= 0 then n else 0x1_0000_0000_0000_0000 + n;
    }
  }

  ghost function States(channels: seq<Channel>): (r: seq<Chan<Client>>)
    reads channels
    ensures |r| == |channels| && forall i :: 0 <= i < |channels| ==> r[i] == channels[i].State()
  {
    seq(|channels|, i requires 0 <= i < |channels| reads channels => channels[i].State())
  }

  /** `Utils::split(message, "\r\n")` gives one piece at most for a WHO on a channel name, and it is a WHO. */
  lemma EchoIsSingle(name: string)
    requires NameOk(name)
    ensures SingleLine(WHO_COMMAND + name) && CommandOf(WHO_COMMAND + name) == "WHO"
  {
    hide Find, Trimmed;
    var line := WHO_COMMAND + name;
    forall i ensures !OccursAt(CRLF, line, i) {
      if 4 <= i && i + 2 <= |line| {
        assert line[i..i + 2] == name[i - 4..i - 2];
        assert !OccursAt(CRLF, name, i - 4);
      } else if 0 <= i && i + 2 <= |line| {
        assert line[i..i + 2][0] == line[i];
      }
    }
    SplitWhole(line, CRLF);
    EchoCommand(name);
  }

  lemma EchoCommand(name: string)
    ensures CommandOf(WHO_COMMAND + name) == "WHO"
  {
    hide Find;
    assert WHO_COMMAND + name == "WHO" + " " + name;
    CharUnbordered(' ');
    ContainsChar("WHO", ' ');
    FirstDelimiter("WHO", " ", name);
    assert Upper("WHO") == "WHO";
  }

  /** A WHO line does exactly what the broadcast of a ban expects of it. */
  lemma EchoIsLine<Id>(w: World<Id>, name: string, fd: int)
    requires NameOk(name)
    ensures LineStep(w, WHO_COMMAND + name, fd) == if EchoOk(w, name, fd) then Some(w) else None
  {
    hide CheckLine, WhoOk, NameOk, CommandOf;
    EchoIsSingle(name);
    if CheckLine(w, WHO_COMMAND + name, fd).Run? {
      GateRuns(w, WHO_COMMAND + name, fd);
    }
  }

  /** The recursion depth still ahead of `Execute`. */
  function Rank(message: string): nat {
    if |Split(message, CRLF)| > 1 then 3 else if CommandOf(message) == "MODE" then 2 else 0
  }

  lemma EchoRank(name: string)
    requires NameOk(name)
    ensures Rank(WHO_COMMAND + name) == 0
  {
    EchoIsSingle(name);
  }

  class Server {
    const password: string
    const unset: Int32
    var clients: seq<Client>
    var channels: seq<Channel>
    ghost var known: set<Client>

    constructor (password: string, unset: Int32)
      ensures Valid() && World() == Init(password, unset)
    {
      this.password, this.unset := password, unset;
      clients, channels, known := [], [], {};
    }

    ghost function World(): World<Client>
      reads this, known, channels
    {
      FtState.World(password, unset, Snapshot(known), clients, States(channels))
    }

    /** All references lead to known clients, and no channel stands in the list twice. */
    ghost predicate Shape()
      reads this, channels
    {
      && (forall c <- clients :: c in known)
      && (forall i :: 0 <= i < |channels| ==> channels[i].Within(known))
      && (forall i, j :: 0 <= i < j < |channels| ==> channels[i] != channels[j])
    }

    ghost predicate Valid()
      reads this, known, channels
    {
      Shape() && Inv(World())
    }

    /** After a change of one channel, exactly its state differs. */
    twostate lemma StateChanged(i: nat)
      requires old(Shape()) && unchanged(this) && i < |channels|
      requires forall d <- known :: unchanged(d)
      requires forall j :: 0 <= j < |channels| && j != i ==> unchanged(channels[j])
      requires channels[i].Within(known)
      ensures Shape() && Snapshot(known) == old(Snapshot(known))
      ensures States(channels) == old(States(channels))[i := channels[i].State()]
    {
    }

    twostate lemma ChannelChanged(i: nat)
      requires old(Shape()) && unchanged(this) && i < |channels|
      requires (forall d <- known :: unchanged(d))
      requires forall j :: 0 <= j < |channels| && j != i ==> unchanged(channels[j])
      requires channels[i].Within(known)
      ensures Shape() && World() == With(old(World()), i, channels[i].State())
    {
      StateChanged(i);
    }

    /** After a new channel was put on the list, exactly its state is added. */
    twostate lemma ChannelAdded(new ch: Channel)
      requires old(Shape()) && unchanged(this`clients) && unchanged(this`known) && channels == old(channels) + [ch]
      requires (forall d <- known :: unchanged(d))
      requires forall i :: 0 <= i < |old(channels)| ==> unchanged(old(channels)[i])
      requires ch !in old(channels) && ch.Within(known)
      ensures Shape() && World() == old(World()).(channels := old(World()).channels + [ch.State()])
    {
      assert Snapshot(known) == old(Snapshot(known));
      assert States(channels) == old(States(channels)) + [ch.State()];
    }

    /** After a change of one client, exactly its record differs. */
    twostate lemma SenderChanged(c: Client)
      requires old(Shape()) && unchanged(this) && c in known
      requires forall d <- known :: d != c ==> unchanged(d)
      requires forall i :: 0 <= i < |channels| ==> unchanged(channels[i])
      ensures Shape() && World() == SetInfo(old(World()), c, c.Info())
    {
      assert Snapshot(known) == old(Snapshot(known))[c := c.Info()];
      assert States(channels) == old(States(channels));
    }

    /** After a new client was put on the list, exactly its record is added. */
    twostate lemma ClientAdded(new c: Client)
      requires old(Shape()) && unchanged(this`channels) && c !in old(known)
      requires known == old(known) + {c} && clients == old(clients) + [c]
      requires (forall d <- old(known) :: unchanged(d)) && forall i :: 0 <= i < |channels| ==> unchanged(channels[i])
      ensures var w := old(World()); Shape() && World() == w.(info := w.info[c := c.Info()], live := w.live + [c])
    {
      assert Snapshot(known) == old(Snapshot(known))[c := c.Info()];
      assert States(channels) == old(States(channels));
      assert forall i :: 0 <= i < |channels| ==> old(channels[i].Within(known)) && channels[i].Within(known);
    }

    lemma ChannelWithin(i: nat)
      requires Shape() && i < |channels|
      ensures channels[i].Within(known) && States(channels)[i] == channels[i].State()
      ensures forall c <- clients :: c in known
      ensures (forall c <- channels[i].clients :: c in known) && (forall c <- channels[i].operators :: c in known)
      ensures forall j :: 0 <= j < |channels| && j != i ==> channels[j] != channels[i]
    {
    }

    lemma InfoOf(c: Client)
      requires c in known
      ensures Of(World().info, c) == c.Info()
    {
    }

    /** A list that only grew and still has the channels of an earlier state is that state's list. */
    lemma SameChannels(before: seq<Channel>, w: World<Client>)
      requires before <= channels && World() == w && |w.channels| == |before|
      ensures channels == before
    {
      View();
    }

    /** The parts of the abstract state. */
    lemma View()
      ensures World().info == Snapshot(known) && World().live == clients && World().channels == States(channels)
      ensures World().password == password && World().unset == unset
    {
    }

    method GetClient(fd: int) returns (r: Option<Client>)
      requires Shape()
      ensures r == ByFd(World().info, clients, fd) && (r.Some? ==> r.value in known)
    {
      r := SearchFd(known, clients, fd);
    }

    /** `getChannel(string)`; the index is for the proof only. */
    method GetChannel(name: string) returns (r: Option<Channel>, ghost at: nat)
      ensures r == match ByName(States(channels), name) case None => None case Some(i) => Some(channels[i])
      ensures r.Some? ==> ByName(States(channels), name) == Some(at)
    {
      at := 0;
      for i := 0 to |channels|
        invariant forall j :: 0 <= j < i ==> channels[j].name != name
      {
        if channels[i].name == name {
          ByNameIs(States(channels), name, i);
          return Some(channels[i]), i;
        }
      }
      r := None;
    }

    /** `Server::listen(int, std::string)`: a connection was accepted. */
    method Connect(fd: int, host: string) returns (c: Client)
      requires Valid() && ByFd(World().info, clients, fd).None?
      modifies this`clients, this`known
      ensures Valid() && fresh(c) && known == old(known) + {c}
      ensures Step(old(World()), FtSteps.Connect(c, fd, host)) == Some(World())
    {
      hide Inv, World, Shape, States;
      ghost var w := World();
      View();
      c := new Client(fd, host);
      assert c !in old(Snapshot(known)).Keys;
      known := known + {c};
      clients := clients + [c];
      ClientAdded(c);
      StepInv(w, FtSteps.Connect(c, fd, host));
    }

    /** The erase loop of `removeClient` and of `close`: the first client with the descriptor goes. */
    method EraseClient(fd: int)
      requires Shape()
      modifies this`clients
      ensures Shape() && clients == DropFd(Snapshot(known), old(clients), fd)
    {
      hide ByFd, RemoveFirst;
      var c := SearchFd(known, clients, fd);
      if c.Some? {
        clients := EraseFirst(clients, c.value);
      }
    }

    /** The loop of `removeClient` over the channels. */
    method LeaveChannels(fd: int)
      requires Shape()
      modifies channels
      ensures Shape() && States(channels) == LeaveAll(Snapshot(known), old(States(channels)), fd)
    {
      hide Leave, LeaveAll, DropOption, ByFd;
      ghost var info, before := Snapshot(known), States(channels);
      for i := 0 to |channels|
        invariant Shape() && Snapshot(known) == info
        invariant forall j :: 0 <= j < |channels| ==>
                    channels[j].State() == if j < i then Leave(info, before[j], fd) else before[j]
      {
        var c := SearchFd(known, channels[i].clients, fd);
        LeaveIsDrop(info, before[i], fd);
        channels[i].RemoveClient(known, c);
      }
      assert States(channels) == LeaveAll(info, before, fd);
    }

    /** `Server::removeClient`. */
    method RemoveClient(fd: int)
      requires Shape()
      modifies this`clients, channels
      ensures Shape() && World() == ServerRemove(old(World()), fd)
    {
      hide LeaveAll, DropFd;
      EraseClient(fd);
      LeaveChannels(fd);
      assert Snapshot(known) == old(Snapshot(known));
      EraseClient(fd);
    }

    /** A connection ended: `read` got nothing. */
    method Hangup(fd: int)
      requires Valid()
      modifies this`clients, channels
      ensures Valid() && Step(old(World()), FtSteps.Hangup(fd)) == Some(World())
    {
      hide Inv, ServerRemove;
      ghost var w := World();
      RemoveClient(fd);
      StepInv(w, FtSteps.Hangup(fd));
    }

    // -------------------------------------------------------------- handlers; false: the program does not survive

    /** The inner loop of QUIT: the text is split again for every other member of a channel. */
    method Announce(message: string, members: seq<Client>, sender: Option<Client>, fd: int)
      returns (ok: bool, text: string)
      requires forall c <- members :: c in known
      ensures var k := Others(Snapshot(known), members, fd);
              if k > 0 && sender.None? then !ok
              else ok == QuitText(message, k).Some? && (ok ==> text == QuitText(message, k).value)
    {
      hide Split;
      text := message;
      ghost var info := Snapshot(known);
      for i := 0 to |members|
        invariant QuitText(message, Others(info, members, fd)) == QuitText(text, Others(info, members[i..], fd))
        invariant sender.None? ==> Others(info, members[i..], fd) == Others(info, members, fd)
      {
        assert members[i..][1..] == members[i + 1..];
        if members[i].fd != fd {
          var words := ScanSplit(text, ":");
          if |words| < 2 || sender.None? {
            return false, text;
          }
          text := words[1];
        }
      }
      ok := true;
    }

    /** What QUIT does on one channel: announce the text to the others, and leave. */
    method TakeLeave(i: nat, message: string, sender: Option<Client>, fd: int) returns (ok: bool, text: string)
      requires Shape() && i < |channels| && (sender.Some? ==> sender.value in known)
      modifies channels[i]
      ensures Shape() && Snapshot(known) == old(Snapshot(known))
      ensures States(channels) == old(States(channels))[i := channels[i].State()]
      ensures var info, ch := Snapshot(known), old(States(channels)[i]);
              var k := Others(info, ch.clients, fd);
              if ByFd(info, ch.clients, fd).None? then ok && text == message && channels[i].State() == ch
              else if (k > 0 && sender.None?) || QuitText(message, k).None? then !ok
              else ok && text == QuitText(message, k).value && channels[i].State() == DropOption(info, ch, sender)
    {
      hide ByFd, DropOption, Others, QuitText, Shape, States, Snapshot;
      ok, text := true, message;
      var channel := channels[i];
      ChannelWithin(i);
      var member := SearchFd(known, channel.clients, fd);
      if member.Some? {
        ok, text := Announce(message, channel.clients, sender, fd);
        if ok {
          channel.RemoveClient(known, sender);
        }
      }
      StateChanged(i);
    }

    /** The loop of QUIT over the channels. */
    method Farewell(line: string, sender: Option<Client>, fd: int) returns (ok: bool)
      requires Shape() && (sender.Some? ==> sender.value in known)
      modifies channels
      ensures Shape() && Snapshot(known) == old(Snapshot(known))
      ensures var left := QuitChannels(Snapshot(known), old(States(channels)), sender, fd, line);
              ok == left.Some? && (ok ==> States(channels) == left.value)
    {
      hide ByFd, DropOption, Others, QuitText, QuitChannels, After, Shape, States, Snapshot;
      ghost var info, done, rest := Snapshot(known), [], States(channels);
      ghost var left := QuitChannels(info, rest, sender, fd, line);
      var message := line;
      QuitStart(rest, left);
      for i := 0 to |channels|
        invariant Shape() && Snapshot(known) == info
        invariant |done| == i && States(channels) == done + rest
        invariant left == After(done, QuitChannels(info, rest, sender, fd, message))
      {
        QuitTurn(info, done, rest, sender, fd, left, message);
        ok, message := TakeLeave(i, message, sender, fd);
        if !ok {
          return;
        }
        Advance(done, rest, channels[i].State());
        done, rest := done + [channels[i].State()], rest[1..];
      }
      QuitDone(info, rest, sender, fd, message);
      AfterAll(done, rest);
      ok := true;
    }

    method ExecQuit(line: string, fd: int) returns (ok: bool)
      requires Shape()
      modifies this`clients, channels
      ensures Shape() && ok == QuitStep(old(World()), line, fd).Some?
      ensures ok ==> World() == QuitStep(old(World()), line, fd).value
    {
      hide ServerRemove, ByFd, QuitChannels, Snapshot, States;
      var sender := GetClient(fd);
      ok := Farewell(line, sender, fd);
      if ok {
        RemoveClient(fd);
      }
    }

    method ExecPass(line: string, fd: int) returns (ok: bool)
      requires Shape()
      modifies known
      ensures Shape() && ok == PassStep(old(World()), line, fd).Some?
      ensures ok ==> World() == PassStep(old(World()), line, fd).value
    {
      hide ByFd, ParsedInfo;
      var client := GetClient(fd);
      if client.None? {
        return false;
      }
      var info := Parse(line);
      var c := client.value;
      c.password := info.function_;
      SenderChanged(c);
      ok := true;
    }

    method ExecNick(line: string, fd: int) returns (ok: bool)
      requires Shape()
      modifies known
      ensures Shape() && ok == NickStep(old(World()), line, fd).Some?
      ensures ok ==> World() == NickStep(old(World()), line, fd).value
    {
      hide World, ByFd, ByNick, ParsedInfo, Renamed;
      View();
      ok := true;
      var client := GetClient(fd);
      if client.None? {
        return false;
      }
      var info := Parse(line);
      var c := client.value;
      var other := SearchNick(known, clients, info.function_);
      if other.Some? {
        c.taken := true;
      } else {
        ok := c.Rename(info.function_, password);
      }
      SenderChanged(c);
    }

    method ExecUser(line: string, fd: int) returns (ok: bool)
      requires Shape()
      modifies this`clients, channels, known
      ensures Shape() && ok == UserStep(old(World()), line, fd).Some?
      ensures ok ==> World() == UserStep(old(World()), line, fd).value
    {
      View();
      UserWords(line);
      hide ByFd, Split, Words, ParsedUser, ServerRemove, Registered;
      ghost var w := World();
      var words := ScanSplit(line, " ");
      var client := GetClient(fd);
      if |words| < 5 || client.None? {
        return false;
      }
      ok := true;
      var c := client.value;
      var matched := c.Register(words, password);
      SenderChanged(c);
      UserStepIs(w, line, fd, c);
      ghost var w' := SetInfo(w, c, Registered(Of(w.info, c), ParsedUser(line).value, w.password));
      assert World() == w';
      assert matched <==> Of(w.info, c).password == w.password;
      if !matched {
        RemoveClient(fd);
        assert World() == ServerRemove(w', fd);
      }
    }

    method ExecPart(line: string, fd: int) returns (ok: bool)
      requires Shape()
      modifies channels
      ensures Shape() && ok == PartStep(old(World()), line, fd).Some?
      ensures ok ==> World() == PartStep(old(World()), line, fd).value
    {
      View();
      hide World, Shape, States, Snapshot, ByFd, ByName, ParsedInfo, Drop;
      var client := GetClient(fd);
      if client.None? {
        return false;
      }
      ok := true;
      var info := Parse(line);
      var channel, at := GetChannel(info.function_);
      if channel.Some? {
        ChannelWithin(at);
        channel.value.RemoveClient(known, client);
        ChannelChanged(at);
      }
    }

    method ExecJoin(line: string, fd: int) returns (ok: bool)
      requires Shape()
      modifies this`channels, channels
      ensures Shape() && ok == JoinStep(old(World()), line, fd).Some?
      ensures ok ==> World() == JoinStep(old(World()), line, fd).value
      ensures old(channels) <= channels
      ensures forall k :: 0 <= k < |channels| ==> channels[k] in old(channels) || fresh(channels[k])
    {
      View();
      hide World, Shape, States, Snapshot, ByFd, ByName, ParsedInfo, Admit;
      var client := GetClient(fd);
      if client.None? {
        return false;
      }
      ok := true;
      var info := Parse(line);
      var channel, at := GetChannel(info.function_);
      if channel.Some? {
        ChannelWithin(at);
        var ch := channel.value;
        if ch.password != "" && ch.password != info.value {
          return;
        }
        var joined := ch.AddClient(known, client.value);
        ChannelChanged(at);
      } else {
        NewcomerJoins(Snapshot(known), info.function_, client.value);
        Found(info.function_, client.value);
      }
    }

    /** The branch of JOIN that creates the channel. */
    method Found(name: string, c: Client)
      requires Shape() && c in known
      modifies this`channels
      ensures Shape() && old(channels) <= channels && |channels| == |old(channels)| + 1
      ensures fresh(channels[|old(channels)|])
      ensures var founded := NewChan(name).(clients := [c], operators := [c]);
              World() == old(World()).(channels := old(World()).channels + [founded])
    {
      hide Admit, World, States, Snapshot;
      var ch := new Channel(name);
      NewcomerJoins(Snapshot(known), name, c);
      var joined := ch.AddClient(known, c);
      channels := channels + [ch];
      ChannelAdded(ch);
    }

    method ExecKick(line: string, fd: int) returns (ok: bool)
      requires Shape()
      modifies channels
      ensures Shape() && ok == KickStep(old(World()), line, fd).Some?
      ensures ok ==> World() == KickStep(old(World()), line, fd).value
    {
      hide World, KickFrom, ParsedInfo, Split, Trim, Find;
      ContainsChar(line, ':');
      var head := line;
      if Find(line, ":", 0).Some? {
        var words := ScanSplit(line, ":");
        if |words| < 2 {
          return false;
        }
        head := TrimScan(words[0]);
      }
      var info := Parse(head);
      ok := Kick(info, fd);
    }

    method Kick(info: ParseInfo, fd: int) returns (ok: bool)
      requires Shape()
      modifies channels
      ensures Shape() && ok == KickFrom(old(World()), info, fd).Some?
      ensures ok ==> World() == KickFrom(old(World()), info, fd).value
    {
      View();
      hide World, Shape, States, Snapshot, ByFd, ByNick, ByName, Drop;
      var channel, at := GetChannel(info.function_);
      if channel.None? {
        return false;
      }
      ok := true;
      var ch := channel.value;
      ChannelWithin(at);
      var op := SearchFd(known, ch.operators, fd);
      if op.None? {
        return;
      }
      var target := SearchNick(known, ch.clients, info.value);
      if target.None? {
        return;
      }
      ch.RemoveClient(known, target);
      ChannelChanged(at);
    }

    method ExecInvite(line: string, fd: int) returns (ok: bool)
      requires Shape()
      modifies channels
      ensures Shape() && ok == InviteStep(old(World()), line, fd).Some?
      ensures ok ==> World() == InviteStep(old(World()), line, fd).value
    {
      View();
      hide World, Shape, States, Snapshot, ByFd, ByNick, ByName, ParsedInfo;
      ok := true;
      var info := Parse(line);
      var channel, at := GetChannel(info.value);
      if channel.None? {
        return;
      }
      var ch := channel.value;
      ChannelWithin(at);
      var op := SearchFd(known, ch.operators, fd);
      if op.None? {
        return;
      }
      var guest := SearchNick(known, clients, info.function_);
      if guest.None? {
        return;
      }
      if guest.value in ch.invites {
        return false;
      }
      ch.invites := ch.invites + [guest.value];
      ChannelChanged(at);
    }

    method ExecTopic(line: string, fd: int) returns (ok: bool)
      requires Shape()
      modifies channels
      ensures Shape() && ok == TopicStep(old(World()), line, fd).Some?
      ensures ok ==> World() == TopicStep(old(World()), line, fd).value
    {
      View();
      hide World, Shape, States, Snapshot, ByFd, ByName, ParsedInfo, Split;
      var info := Parse(line);
      var channel, at := GetChannel(info.function_);
      if channel.None? {
        return false;
      }
      ok := true;
      var ch := channel.value;
      ChannelWithin(at);
      var op := SearchFd(known, ch.operators, fd);
      if op.None? || info.value == "" {
        return;
      }
      var words := ScanSplit(line, ":");
      if |words| < 2 {
        return false;
      }
      ch.topic := words[1];
      ChannelChanged(at);
    }

    /** WHO only sends; it follows the entry of the sender. */
    method ExecWho(line: string, fd: int) returns (ok: bool)
      requires Shape()
      ensures ok == WhoOk(World(), line, fd)
    {
      hide ByFd, ByName, ParsedInfo;
      var info := Parse(line);
      var channel, at := GetChannel(info.function_);
      if channel.None? {
        return true;
      }
      var client := SearchFd(known, channel.value.clients, fd);
      ok := client.Some?;
    }

    /** `execPrivMsg`: the descriptors that get the text. */
    method ExecPrivMsg(line: string, fd: int) returns (ok: bool, to: seq<int>, text: string)
      requires Shape()
      ensures ok == TalkStep(World(), line, fd).Some? && (ok ==> TalkStep(World(), line, fd) == Some(World()))
      ensures ok ==> var talk := ParsedTalk(line).value;
                     && to == Receivers(World(), talk.target, fd, false)
                     && text == Letter(World(), talk, ByFd(World().info, clients, fd).value, false)
    {
      View();
      TalkWords(line);
      hide ByFd, ByNick, ByName, Words, World, Snapshot, States, ParsedTalk, PrivMsgText, NoticeText, OtherFds;
      ok, to, text := false, [], "";
      var sender := GetClient(fd);
      var info := PrivateMessage(line);
      if sender.None? || info.None? {
        return;
      }
      ok := true;
      InfoOf(sender.value);
      text := PrivMsgText(sender.value.nick, info.value);
      var target := SearchNick(known, clients, info.value.target);
      if target.Some? {
        InfoOf(target.value);
        to := [target.value.fd];
      } else {
        to := ChannelFds(info.value.target, fd);
      }
    }

    /** `execNotice`: unlike a PRIVMSG, it is not sent to the own descriptor. */
    method ExecNotice(line: string, fd: int) returns (ok: bool, to: seq<int>, text: string)
      requires Shape()
      ensures ok == TalkStep(World(), line, fd).Some? && (ok ==> TalkStep(World(), line, fd) == Some(World()))
      ensures ok ==> var talk := ParsedTalk(line).value;
                     && to == Receivers(World(), talk.target, fd, true)
                     && text == Letter(World(), talk, ByFd(World().info, clients, fd).value, true)
    {
      View();
      TalkWords(line);
      hide ByFd, ByNick, ByName, Words, World, Snapshot, States, ParsedTalk, PrivMsgText, NoticeText, OtherFds;
      ok, to, text := false, [], "";
      var sender := GetClient(fd);
      var info := PrivateMessage(line);
      if sender.None? || info.None? {
        return;
      }
      ok := true;
      InfoOf(sender.value);
      text := NoticeText(sender.value.nick, sender.value.user, info.value);
      var target := SearchNick(known, clients, info.value.target);
      if target.Some? {
        InfoOf(target.value);
        if target.value.fd != fd {
          to := [target.value.fd];
        }
      } else {
        to := ChannelFds(info.value.target, fd);
      }
    }

    /** The loop of both over the entries of a channel; nobody is told when there is no such channel. */
    method ChannelFds(name: string, fd: int) returns (to: seq<int>)
      requires Shape()
      ensures to == match ByName(World().channels, name)
                    case None => []
                    case Some(i) => OtherFds(World().info, World().channels[i].clients, fd)
    {
      View();
      hide ByName, World, Snapshot, States, OtherFds;
      to := [];
      var channel, at := GetChannel(name);
      if channel.Some? {
        ChannelWithin(at);
        var members := channel.value.clients;
        ghost var all := OtherFds(World().info, members, fd);
        assert members[0..] == members && [] + all == all;
        for i := 0 to |members|
          invariant all == to + OtherFds(World().info, members[i..], fd)
        {
          OtherFdsFrom(World().info, members, fd, i, to);
          InfoOf(members[i]);
          if members[i].fd != fd {
            to := to + [members[i].fd];
          }
        }
        NoFds(World().info, members[|members|..], fd, to);
      }
    }

    // -------------------------------------------------------------- modes

    method ExecOperator(ghost at: nat, channel: Channel, info: ModeInfo) returns (ok: bool)
      requires Shape() && at < |channels| && channels[at] == channel
      modifies channel
      ensures Shape() && ok == OperatorStep(old(World()), at, info).Some?
      ensures ok ==> World() == OperatorStep(old(World()), at, info).value
    {
      View();
      ChannelWithin(at);
      hide World, Shape, States, Snapshot, ByNick, RemoveFirst;
      var client := SearchNick(known, channel.clients, info.parameters);
      if client.None? {
        return !info.status;
      }
      ok := true;
      if info.status {
        channel.AddOperator(known, client.value);
      } else {
        channel.operators := EraseFirst(channel.operators, client.value);
      }
      ChannelChanged(at);
    }

    /** The limit is set once for every member. */
    method ExecLimit(ghost at: nat, channel: Channel, info: ModeInfo)
      requires Shape() && at < |channels| && channels[at] == channel
      modifies channel
      ensures Shape() && Some(World()) == LimitStep(old(World()), at, info)
    {
      View();
      ChannelWithin(at);
      hide World, Shape, States, Snapshot, ToInt;
      var members := channel.clients;
      for i := 0 to |members|
        invariant channel.State() == old(channel.State()).(limit := channel.limit)
        invariant channel.limit == if i == 0 then old(channel.limit)
                                   else if info.status then LimitOf(ToInt(info.parameters, unset)) else 0
      {
        if info.status {
          channel.SetLimit(ToInt(info.parameters, unset));
        } else {
          channel.SetLimit(0);
        }
      }
      ChannelChanged(at);
      SameChannel(old(World()), at);
    }

    /** The WHO that a ban sends through `Execute` on behalf of one member. */
    method Echo(name: string, fd: int) returns (ok: bool)
      requires Valid() && NameOk(name)
      modifies this`clients, this`channels, channels, known
      ensures ok == EchoOk(old(World()), name, fd)
      ensures ok ==> Valid() && World() == old(World()) && channels == old(channels)
      decreases 1, 0
    {
      hide World, Shape, Inv, LinesOf, RunLines, RunLetters, EchoOk, NameOk;
      ghost var w := World();
      View();
      EchoRuns(w, name, fd);
      EchoIsSilent(w, name, fd);
      var sent;
      ok, sent := Execute(WHO_COMMAND + name, fd);
      if ok {
        assert sent == [];
        SameChannels(old(channels), w);
      }
    }

    /** The broadcast that a ban ends with: a WHO for every member. */
    method EchoAll(ghost at: nat, channel: Channel) returns (ok: bool)
      requires Valid() && at < |channels| && channels[at] == channel
      modifies this`clients, this`channels, channels, known
      ensures ok == EchoAllOk(old(World()), at)
      ensures ok ==> Valid() && World() == old(World()) && channels == old(channels)
      decreases 1, 1
    {
      hide World, Shape, Inv, EchoOk, EchoAllOk, NameOk;
      ghost var w := World();
      var name, members := channel.name, channel.clients;
      EchoTargets(at);
      ok := true;
      for i := 0 to |members|
        invariant Valid() && World() == w && channels == old(channels) && ok
        invariant forall j :: 0 <= j < i ==> EchoOk(w, name, members[j].fd)
      {
        ok := Echo(name, members[i].fd);
        if !ok {
          return;
        }
      }
    }

    /** A ban is broadcast well when each member's WHO is. */
    lemma EchoTargets(at: nat)
      requires Valid() && at < |channels|
      ensures NameOk(channels[at].name)
      ensures EchoAllOk(World(), at) <==>
              forall j :: 0 <= j < |channels[at].clients| ==>
                EchoOk(World(), channels[at].name, channels[at].clients[j].fd)
    {
      View();
      ChannelWithin(at);
      ChannelNameOk(World(), at);
      EchoAllIs(World(), at);
      forall j | 0 <= j < |channels[at].clients|
        ensures Of(World().info, channels[at].clients[j]).fd == channels[at].clients[j].fd
      {
        InfoOf(channels[at].clients[j]);
      }
    }

    /** The +b branch of `execBan`. */
    method ExecSetBan(ghost at: nat, channel: Channel, mask: string) returns (ok: bool)
      requires Valid() && at < |channels| && channels[at] == channel
      modifies this`clients, this`channels, channels, known
      ensures ok == SetBan(old(World()), at, mask).Some?
      ensures ok ==> Shape() && World() == SetBan(old(World()), at, mask).value && channels == old(channels)
      decreases 1, 2
    {
      View();
      ChannelWithin(at);
      hide World, Shape, States, Snapshot, Inv, Split, BanMask, Ban, EchoAllOk, WithHost, SetBan;
      SetBanCases(World(), at, mask);
      ghost var w := World();
      var words := ScanSplit(BanMask(mask), "@");
      if |words| < 2 {
        return false;
      }
      var more := BanHost(at, channel, words[1]);
      ok := true;
      if more {
        ok := EchoAll(at, channel);
      }
    }

    /** The clients with a host are banned one after the other; false: AlreadyBanException ended that. */
    method BanHost(ghost at: nat, channel: Channel, host: string) returns (done: bool)
      requires Valid() && at < |channels| && channels[at] == channel
      modifies channel
      ensures Valid()
      ensures var w := old(World());
              var victims := WithHost(w.info, w.channels[at].clients, host);
              if victims == [] then done && World() == w
              else
                var banned := Ban(w.info, w.channels[at], victims[0]);
                && World() == (if banned.None? then w else With(w, at, banned.value))
                && (done <==> |victims| == 1 && banned.Some?)
    {
      View();
      ChannelWithin(at);
      hide World, Shape, States, Snapshot, Inv, Ban, WithHost;
      ghost var w := World();
      var victims := FilterHost(known, channel.clients, host);
      done := BanVictims(at, channel, victims, host);
      if victims != [] && Ban(w.info, w.channels[at], victims[0]).Some? {
        BanInv(w, at, victims[0]);
      }
    }

    /** The loop over the clients with the host; false: AlreadyBanException ended it. */
    method BanVictims(ghost at: nat, channel: Channel, victims: seq<Client>, ghost host: string) returns (done: bool)
      requires Shape() && at < |channels| && channels[at] == channel
      requires forall c <- victims :: c in known && c.host == host
      modifies channel
      ensures Shape()
      ensures var w := old(World());
              World() == if victims == [] || Ban(w.info, w.channels[at], victims[0]).None? then w
                         else With(w, at, Ban(w.info, w.channels[at], victims[0]).value)
      ensures var w := old(World());
              done <==> victims == [] || (|victims| == 1 && Ban(w.info, w.channels[at], victims[0]).Some?)
    {
      View();
      ChannelWithin(at);
      hide World, Shape, States, Snapshot, Ban;
      ghost var w := World();
      done := true;
      for i := 0 to |victims|
        invariant Shape() && i <= 1 && done
        invariant if i == 0 then World() == w else
                    && Ban(w.info, w.channels[at], victims[0]).Some?
                    && World() == With(w, at, Ban(w.info, w.channels[at], victims[0]).value)
      {
        label turn:
        ghost var ch := channel.State();
        View();
        ChannelWithin(at);
        InfoOf(victims[i]);
        if i == 1 {
          InfoOf(victims[0]);
          BannedTwice(w.info, w.channels[at], victims[0], victims[1]);
        }
        done := channel.AddBan(known, victims[i]);
        ChannelChanged@turn(at);
        if !done {
          SameChannel(old@turn(World()), at);
          return;
        }
      }
    }

    /** The -b branch of `execBan`. */
    method ExecClearBan(ghost at: nat, channel: Channel, mask: string) returns (ok: bool)
      requires Valid() && at < |channels| && channels[at] == channel
      modifies this`clients, this`channels, channels, known
      ensures ok == ClearBan(old(World()), at, mask).Some?
      ensures ok ==> Shape() && World() == ClearBan(old(World()), at, mask).value && channels == old(channels)
      decreases 1, 2
    {
      hide World, Shape, States, Snapshot, Inv, Split, BanMask, EchoAllOk, ByHost, RemoveFirst, Trim;
      ok := EchoAll(at, channel);
      if !ok {
        return;
      }
      View();
      ChannelWithin(at);
      var words := ScanSplit(BanMask(mask), "@");
      if |words| < 2 {
        return false;
      }
      var host := TrimScan(words[1]);
      var ban := SearchHost(known, channel.bans, host);
      if ban.None? {
        return channel.bans == [];
      }
      label clear:
      channel.RemoveBan(known, ban.value);
      ChannelChanged@clear(at);
    }

    method ExecBan(ghost at: nat, channel: Channel, info: ModeInfo) returns (ok: bool)
      requires Valid() && at < |channels| && channels[at] == channel
      modifies this`clients, this`channels, channels, known
      ensures ok == BanStep(old(World()), at, info).Some?
      ensures ok ==> Shape() && World() == BanStep(old(World()), at, info).value && channels == old(channels)
      decreases 1, 3
    {
      hide World, Shape, Inv, SetBan, ClearBan;
      ok := true;
      if info.status {
        if info.parameters != "" {
          ok := ExecSetBan(at, channel, info.parameters);
        }
      } else {
        ok := ExecClearBan(at, channel, info.parameters);
      }
    }

    method ExecMode(line: string, fd: int) returns (ok: bool)
      requires Valid()
      modifies this`clients, this`channels, channels, known
      ensures ok == ModeStep(old(World()), line, fd).Some?
      ensures ok ==> Shape() && World() == ModeStep(old(World()), line, fd).value && channels == old(channels)
      decreases 1, 5
    {
      View();
      hide World, Shape, States, Snapshot, Inv, Split, ParsedMode, ByName, ByFd, ApplyMode;
      ContainsChar(line, ' ');
      ok := true;
      if Find(line, " ", 0).None? {
        return;
      }
      var words := ScanSplit(line, " ");
      if |words| < 3 {
        return;
      }
      var info := ParsedMode(line);
      if info.None? {
        return false;
      }
      var channel, at := GetChannel(info.value.channel);
      if channel.None? {
        return false;
      }
      ChannelWithin(at);
      var op := SearchFd(known, channel.value.operators, fd);
      if op.Some? {
        ok := ChangeMode(at, channel.value, info.value);
      }
    }

    /** The dispatch on the mode letter. */
    method ChangeMode(ghost at: nat, channel: Channel, info: ModeInfo) returns (ok: bool)
      requires Valid() && at < |channels| && channels[at] == channel
      modifies this`clients, this`channels, channels, known
      ensures ok == ApplyMode(old(World()), at, info).Some?
      ensures ok ==> Shape() && World() == ApplyMode(old(World()), at, info).value && channels == old(channels)
      decreases 1, 4
    {
      View();
      ChannelWithin(at);
      hide World, Shape, States, Snapshot, Inv, OperatorStep, BanStep, LimitStep, LowerChar;
      var key := LowerChar(info.key);
      ok := true;
      if key == 'o' {
        ok := ExecOperator(at, channel, info);
      } else if key == 'b' {
        ok := ExecBan(at, channel, info);
      } else if key == 'l' {
        ExecLimit(at, channel, info);
      } else if key == 'i' {
        channel.inviteOnly := info.status;
        ChannelChanged(at);
      } else if key == 'k' {
        channel.password := info.parameters;
        ChannelChanged(at);
      } else if key == 't' {
        channel.topic := info.parameters;
        ChannelChanged(at);
      }
    }

    // -------------------------------------------------------------- one text

    /** `Checker::check` for a line, and the test that its sender is logged in. */
    method Check(line: string, fd: int) returns (gate: Gate)
      requires Shape()
      ensures gate == CheckLine(World(), line, fd)
    {
      View();
      hide World, Shape, States, Split, Trim, CommandOf, Accepts, ByFd, FormatOf;
      var client := GetClient(fd);
      var command := CommandOf(line);
      var trimmed := TrimScan(line);
      ContainsChar(trimmed, ' ');
      if Find(trimmed, " ", 0).None? || command !in COMMANDS {
        return if client.None? then Crash else Ignored;
      }
      var format := Format(trimmed);
      if !Accepts(command, trimmed, format) {
        return Ignored;
      }
      if command in {"QUIT", "USER", "NICK", "PASS"} {
        return Run(command);
      }
      if client.None? {
        return Crash;
      }
      gate := if client.value.login then Run(command) else Ignored;
    }

    /** The chain of handlers. */
    method Dispatch(command: string, line: string, fd: int) returns (ok: bool, sent: seq<(int, string)>)
      requires Valid() && CommandOf(line) == command
      modifies this`clients, this`channels, channels, known
      ensures ok == Handle(old(World()), command, line, fd).Some?
      ensures ok ==> Shape() && World() == Handle(old(World()), command, line, fd).value
      ensures ok ==> sent == LettersBy(old(World()), command, line, fd)
      ensures ok ==> old(channels) <= channels
      ensures ok ==> forall k :: 0 <= k < |channels| ==> channels[k] in old(channels) || fresh(channels[k])
      decreases if CommandOf(line) == "MODE" then 2 else 0, 0
    {
      View();
      hide World, Inv, QuitStep, UserStep, NickStep, PassStep, TalkStep, JoinStep, PartStep, WhoOk, ModeStep, KickStep;
      hide InviteStep, TopicStep, CommandOf, LettersBy, Receivers, Letter, ParsedTalk, ByFd;
      ok, sent := true, [];
      LettersByCommand(World(), command, line, fd);
      match command
      case "QUIT" => ok := ExecQuit(line, fd);
      case "USER" => ok := ExecUser(line, fd);
      case "NICK" => ok := ExecNick(line, fd);
      case "PASS" => ok := ExecPass(line, fd);
      case "PRIVMSG" =>
        var to, text;
        ok, to, text := ExecPrivMsg(line, fd);
        if ok {
          sent := Mail(to, text);
        }
      case "NOTICE" =>
        var to, text;
        ok, to, text := ExecNotice(line, fd);
        if ok {
          sent := Mail(to, text);
        }
      case "JOIN" => ok := ExecJoin(line, fd);
      case "PART" => ok := ExecPart(line, fd);
      case "WHO" => ok := ExecWho(line, fd);
      case "MODE" => ok := ExecMode(line, fd);
      case "KICK" => ok := ExecKick(line, fd);
      case "INVITE" => ok := ExecInvite(line, fd);
      case "TOPIC" => ok := ExecTopic(line, fd);
      case _ =>
    }

    /** The part of `Execute` for a single line. */
    method HandleLine(line: string, fd: int) returns (ok: bool, sent: seq<(int, string)>)
      requires Valid() && SingleLine(line)
      modifies this`clients, this`channels, channels, known
      ensures ok == LineStep(old(World()), line, fd).Some?
      ensures ok ==> Valid() && World() == LineStep(old(World()), line, fd).value
      ensures ok ==> sent == LettersOf(old(World()), line, fd)
      ensures ok ==> old(channels) <= channels
      ensures ok ==> forall k :: 0 <= k < |channels| ==> channels[k] in old(channels) || fresh(channels[k])
      decreases if CommandOf(line) == "MODE" then 2 else 0, 1
    {
      hide World, Shape, Inv, CheckLine, Handle, CommandOf, SingleLine, LettersBy;
      ghost var w := World();
      sent := [];
      var gate := Check(line, fd);
      match gate
      case Crash => ok := false;
      case Ignored => ok := true;
      case Run(command) =>
        GateRuns(w, line, fd);
        ok, sent := Dispatch(command, line, fd);
        if ok {
          LineInv(w, line, fd);
        }
    }

    /**
     * `Command::Execute`: a text of several lines is handled line by line, a single line directly. The letters of
     * PRIVMSG and NOTICE go out in the order of the lines.
     */
    method Execute(message: string, fd: int) returns (ok: bool, sent: seq<(int, string)>)
      requires Valid()
      modifies this`clients, this`channels, channels, known
      ensures ok == RunLines(old(World()), LinesOf(message), fd).Some?
      ensures ok ==> Valid() && World() == RunLines(old(World()), LinesOf(message), fd).value
      ensures ok ==> sent == RunLetters(old(World()), LinesOf(message), fd)
      ensures ok ==> old(channels) <= channels
      ensures ok ==> forall k :: 0 <= k < |channels| ==> channels[k] in old(channels) || fresh(channels[k])
      decreases Rank(message), 2
    {
      hide World, Shape, Inv, Split, RunLines, RunLetters, LettersOf, LineStep, UntilEmpty, CheckLine, Handle;
      ghost var w := World();
      ok, sent := true, [];
      var words := ScanSplit(message, CRLF);
      ghost var rest := UntilEmpty(words);
      assert words[0..] == words;
      for i := 0 to |words|
        invariant Valid() && old(channels) <= channels
        invariant forall k :: 0 <= k < |channels| ==> channels[k] in old(channels) || fresh(channels[k])
        invariant |words| == 1 ==> World() == w
        invariant |words| != 1 ==> RunLines(w, rest, fd) == RunLines(World(), UntilEmpty(words[i..]), fd)
        invariant |words| != 1 ==> RunLetters(w, rest, fd) == sent + RunLetters(World(), UntilEmpty(words[i..]), fd)
      {
        assert words[i..][0] == words[i] && words[i..][1..] == words[i + 1..];
        NextLine(World(), words[i..], fd);
        if |words| == 1 {
          break;
        } else if words[i] == "" {
          LettersOfNone(World(), words[i..], fd, sent);
          break;
        }
        RunOne(World(), words[i], fd);
        LettersOfOne(World(), words[i], fd);
        PieceIsLine(message, i);
        ghost var before := World();
        var more;
        ok, more := Execute(words[i], fd);
        if !ok {
          return;
        }
        LettersOfNext(before, words[i..], fd, sent);
        sent := sent + more;
      }
      RunNone(World(), words, fd);
      LettersOfNone(World(), words[|words|..], fd, sent);
      if |words| == 1 {
        RunOne(w, message, fd);
        LettersOfOne(w, message, fd);
        ok, sent := HandleLine(message, fd);
      }
    }
  }

  lemma EchoAllIs<Id>(w: World<Id>, at: nat)
    requires at < |w.channels|
    ensures EchoAllOk(w, at) <==>
            forall j :: 0 <= j < |w.channels[at].clients| ==>
              EchoOk(w, w.channels[at].name, Of(w.info, w.channels[at].clients[j]).fd)
  {
    hide EchoOk;
    if !EchoAllOk(w, at) {
      var c :| c in w.channels[at].clients && !EchoOk(w, w.channels[at].name, Of(w.info, c).fd);
      var j :| 0 <= j < |w.channels[at].clients| && w.channels[at].clients[j] == c;
    }
  }

  lemma ChannelNameOk<Id>(w: World<Id>, i: nat)
    requires Inv(w) && i < |w.channels|
    ensures NameOk(w.channels[i].name)
  {
  }

  /** The WHO of a ban, run through `Execute`. */
  lemma EchoRuns<Id>(w: World<Id>, name: string, fd: int)
    requires NameOk(name)
    ensures Rank(WHO_COMMAND + name) == 0
    ensures RunLines(w, LinesOf(WHO_COMMAND + name), fd) == if EchoOk(w, name, fd) then Some(w) else None
  {
    hide NameOk, EchoOk, LineStep, SingleLine, CommandOf;
    EchoIsSingle(name);
    EchoRank(name);
    EchoIsLine(w, name, fd);
    RunOne(w, WHO_COMMAND + name, fd);
  }

  /** A WHO sends no letter. */
  lemma EchoIsSilent<Id>(w: World<Id>, name: string, fd: int)
    requires NameOk(name)
    ensures RunLetters(w, LinesOf(WHO_COMMAND + name), fd) == []
  {
    hide NameOk, LineStep, SingleLine, CommandOf, LettersOf;
    EchoIsSingle(name);
    OthersSendNone(w, WHO_COMMAND + name, fd);
    LettersOfOne(w, WHO_COMMAND + name, fd);
  }

  lemma RunOne<Id>(w: World<Id>, line: string, fd: int)
    ensures RunLines(w, [line], fd) == LineStep(w, line, fd)
  {
    hide LineStep;
  }

  lemma SameChannel<Id>(w: World<Id>, i: nat)
    requires i < |w.channels|
    ensures With(w, i, w.channels[i]) == w
  {
  }

  lemma RunNone<Id>(w: World<Id>, words: seq<string>, fd: int)
    ensures RunLines(w, UntilEmpty(words[|words|..]), fd) == Some(w)
  {
  }

  lemma NextLine<Id>(w: World<Id>, words: seq<string>, fd: int)
    requires words != []
    ensures RunLines(w, UntilEmpty(words), fd) ==
            if words[0] == "" then Some(w)
            else match LineStep(w, words[0], fd)
                 case None => None
                 case Some(w') => RunLines(w', UntilEmpty(words[1..]), fd)
  {
    hide LineStep;
    if words[0] != "" {
      assert ([words[0]] + UntilEmpty(words[1..]))[1..] == UntilEmpty(words[1..]);
    }
  }

  /** The pieces of a text are single lines, so `Execute` handles each of them directly. */
  lemma PieceIsLine(message: string, i: nat)
    requires i < |Split(message, CRLF)| && |Split(message, CRLF)| != 1 && Split(message, CRLF)[i] != ""
    ensures LinesOf(Split(message, CRLF)[i]) == [Split(message, CRLF)[i]]
    ensures Rank(Split(message, CRLF)[i]) < Rank(message)
  {
    hide Split, CommandOf;
    var piece := Split(message, CRLF)[i];
    SplitFree(message, CRLF);
    assert piece in Split(message, CRLF);
    SplitWhole(piece, CRLF);
  }

  lemma SetBanCases<Id>(w: World<Id>, at: nat, mask: string)
    requires at < |w.channels|
    ensures |Split(BanMask(mask), "@")| < 2 ==> SetBan(w, at, mask).None?
    ensures |Split(BanMask(mask), "@")| >= 2 ==>
              var victims := WithHost(w.info, w.channels[at].clients, Split(BanMask(mask), "@")[1]);
              if victims == [] then SetBan(w, at, mask) == if EchoAllOk(w, at) then Some(w) else None
              else
                var banned := Ban(w.info, w.channels[at], victims[0]);
                if banned.None? then SetBan(w, at, mask) == Some(w)
                else SetBan(w, at, mask) == if |victims| > 1 || EchoAllOk(With(w, at, banned.value), at)
                                            then Some(With(w, at, banned.value)) else None
  {
    hide Split, BanMask, Ban, EchoAllOk, WithHost;
  }

  /** After a ban, no second entry with the host can be banned. */
  lemma BannedTwice<Id>(info: map<Id, ClientInfo>, ch: Chan<Id>, a: Id, b: Id)
    requires Ban(info, ch, a).Some? && Of(info, a).host == Of(info, b).host
    ensures Ban(info, Ban(info, ch, a).value, b).None?
  {
    hide ByHost, RemoveFirst, ByNick;
    assert a in Ban(info, ch, a).value.bans;
  }

  lemma BanInv<Id>(w: World<Id>, i: nat, c: Id)
    requires Inv(w) && i < |w.channels| && c in w.info && Ban(w.info, w.channels[i], c).Some?
    ensures Inv(With(w, i, Ban(w.info, w.channels[i], c).value))
  {
    hide ChanOk, NameOk, LiveOk, ByHost;
    BanOk(w.info, w.channels[i], c);
    var banned := Ban(w.info, w.channels[i], c).value;
    assert banned.name == w.channels[i].name;
  }

  lemma UserWords(line: string)
    ensures |Split(line, " ")| < 5 ==> ParsedUser(line).None?
    ensures |Split(line, " ")| >= 5 ==>
              var words := Split(line, " ");
              ParsedUser(line) == Some(UserInfo(words[1], if words[4] == "" then "" else words[4][1..]))
  {
    hide Split;
  }

  lemma UserStepIs<Id>(w: World<Id>, line: string, fd: int, c: Id)
    requires ByFd(w.info, w.live, fd) == Some(c) && ParsedUser(line).Some?
    ensures var w' := SetInfo(w, c, Registered(Of(w.info, c), ParsedUser(line).value, w.password));
            UserStep(w, line, fd) == Some(if Of(w.info, c).password != w.password then ServerRemove(w', fd) else w')
  {
    hide ByFd, ParsedUser, ServerRemove;
  }

  lemma QuitNext<Id>(info: map<Id, ClientInfo>, channels: seq<Chan<Id>>, c: Option<Id>, fd: int, message: string)
    requires channels != []
    ensures var ch := channels[0];
            var here := ByFd(info, ch.clients, fd).Some?;
            var k := if here then Others(info, ch.clients, fd) else 0;
            QuitChannels(info, channels, c, fd, message) ==
            if !here then After([ch], QuitChannels(info, channels[1..], c, fd, message))
            else if (k > 0 && c.None?) || QuitText(message, k).None? then None
            else After([DropOption(info, ch, c)], QuitChannels(info, channels[1..], c, fd, QuitText(message, k).value))
  {
    hide ByFd, Others, DropOption;
  }

  lemma QuitStart<T>(rest: seq<T>, left: Option<seq<T>>)
    ensures [] + rest == rest && After([], left) == left
  {
    AfterStart(left);
  }

  /** One turn of the loop of QUIT, seen from what is left to do. */
  lemma QuitTurn<Id>(info: map<Id, ClientInfo>, done: seq<Chan<Id>>, rest: seq<Chan<Id>>, c: Option<Id>, fd: int,
                     left: Option<seq<Chan<Id>>>, message: string)
    requires rest != [] && left == After(done, QuitChannels(info, rest, c, fd, message))
    ensures (done + rest)[|done|] == rest[0]
    ensures var ch := rest[0];
            var k := Others(info, ch.clients, fd);
            if ByFd(info, ch.clients, fd).None? then
              left == After(done + [ch], QuitChannels(info, rest[1..], c, fd, message))
            else if (k > 0 && c.None?) || QuitText(message, k).None? then left == None
            else
              var said := QuitText(message, k).value;
              left == After(done + [DropOption(info, ch, c)], QuitChannels(info, rest[1..], c, fd, said))
  {
    hide ByFd, DropOption, Others, QuitText, QuitChannels, After;
    var ch := rest[0];
    var k := Others(info, ch.clients, fd);
    QuitNext(info, rest, c, fd, message);
    AfterNone(done);
    AfterRegroup(done, ch, QuitChannels(info, rest[1..], c, fd, message));
    if QuitText(message, k).Some? {
      AfterRegroup(done, DropOption(info, ch, c), QuitChannels(info, rest[1..], c, fd, QuitText(message, k).value));
    }
  }

  lemma QuitDone<Id>(info: map<Id, ClientInfo>, channels: seq<Chan<Id>>, c: Option<Id>, fd: int, message: string)
    requires channels == []
    ensures QuitChannels(info, channels, c, fd, message) == Some([])
    ensures forall done: seq<Chan<Id>> :: done + [] == done
  {
  }

  /** A new channel admits its founder. */
  lemma NewcomerJoins<Id>(info: map<Id, ClientInfo>, name: string, c: Id)
    ensures Admit(info, NewChan(name), c) == Joined(NewChan(name).(clients := [c], operators := [c]))
  {
    assert [] + [c] == [c];
  }

  lemma {:induction false} ByNameIs<Id>(channels: seq<Chan<Id>>, name: string, i: nat)
    requires i < |channels| && channels[i].name == name
    requires forall j :: 0 <= j < i ==> channels[j].name != name
    ensures ByName(channels, name) == Some(i)
  {
    if i > 0 {
      ByNameIs(channels[1..], name, i - 1);
    }
  }
}
