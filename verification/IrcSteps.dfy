/** What one event does to the `_irc_` server. `None` stands for a step the program does not survive. */
module IrcSteps {
  import opened Lists
  import opened Text
  import opened Tokenizer
  import opened IrcText
  import opened IrcState

  function SetInfo<Id(==)>(w: World<Id>, c: Id, i: ClientInfo): World<Id> {
    w.(info := w.info[c := i])
  }

  /** `closeConnection` of a descriptor, once `close` succeeded. Channels are not touched. */
  function Close<Id(==)>(w: World<Id>, fd: int): World<Id> {
    w.(fds := Without(w.fds, fd), clients := w.clients - {fd}, nicks := DropEntry(w.nicks, fd))
  }

  // ---------------------------------------------------------------- the ladder

  function PassStep<Id(==)>(w: World<Id>, c: Id, parts: seq<string>): World<Id> {
    var me := Of(w.info, c);
    if |parts| < 2 || me.auth || parts[1] != w.password then w else SetInfo(w, c, me.(auth := true))
  }

  function NickStep<Id(==)>(w: World<Id>, c: Id, parts: seq<string>): World<Id> {
    var me := Of(w.info, c);
    if !me.auth || |parts| < 2 || NickTaken(w.nicks, parts[1]) then w
    else SetInfo(w, c, me.(nick := parts[1], hasNick := true)).(nicks := w.nicks + [(me.fd, parts[1])])
  }

  function UserStep<Id(==)>(w: World<Id>, c: Id, parts: seq<string>): World<Id> {
    var me := Of(w.info, c);
    if !me.hasNick || |parts| < 4 || me.user != "" then w
    else
      var realName := StripColon(Join(parts[3..], " "));
      SetInfo(w, c, me.(user := parts[1], ip := parts[2], realName := realName, loged := true))
  }

  // ---------------------------------------------------------------- channels

  function JoinStep<Id(==)>(w: World<Id>, c: Id, parts: seq<string>): World<Id> {
    if |parts| < 2 || |parts[1]| < 2 || parts[1][0] != '#' then w
    else
      var name := parts[1];
      var pass := if |parts| >= 3 then parts[2] else "";
      if name in w.channels then
        var ch := w.channels[name];
        if c in ch.members || ch.key != pass || USER_LIMIT <= |ch.members| then w
        else w.(channels := w.channels[name := ch.(members := ch.members + [c])])
      else w.(channels := w.channels[name := Chan(name, pass, "", Of(w.info, c).nick, [c])])
  }

  /** One channel after the other. */
  function PartAll<Id(==)>(info: map<Id, ClientInfo>, channels: map<string, Chan<Id>>, names: seq<string>,
                           c: Id): map<string, Chan<Id>>
    decreases |names|
  {
    if names == [] then channels else PartAll(info, LeaveAt(info, channels, names[0], c), names[1..], c)
  }

  function PartStep<Id(==)>(w: World<Id>, c: Id, parts: seq<string>): World<Id> {
    if |parts| < 2 then w
    else w.(channels := PartAll(w.info, w.channels, SplitAll(parts[1], ","), c))
  }

  function TopicStep<Id(==)>(w: World<Id>, c: Id, parts: seq<string>): World<Id> {
    if |parts| <= 2 || parts[1] !in w.channels || w.channels[parts[1]].op != Of(w.info, c).nick then w
    else w.(channels := w.channels[parts[1] := w.channels[parts[1]].(topic := Join(parts[2..], " "))])
  }

  /** The channel is used again after the target left it, so it must not have been the last one. */
  ghost function KickStep<Id>(w: World<Id>, c: Id, parts: seq<string>): Option<World<Id>> {
    if |parts| < 3 || parts[1] !in w.channels || w.channels[parts[1]].op != Of(w.info, c).nick then Some(w)
    else
      match ByNick(w.info, w.clients, parts[2])
      case None => Some(w)
      case Some(target) =>
        if target !in w.channels[parts[1]].members then Some(w)
        else if Leave(w.info, w.channels[parts[1]], target).None? then None
        else Some(w.(channels := LeaveAt(w.info, w.channels, parts[1], target)))
  }

  // ---------------------------------------------------------------- talking

  /** `clientFind` and `getClient`: a nick that nobody has is looked up as the empty nick. */
  ghost function Resolve<Id>(w: World<Id>, nick: string): Option<Id> {
    if ByNick(w.info, w.clients, nick).Some? then ByNick(w.info, w.clients, nick) else ByNick(w.info, w.clients, "")
  }

  /** The members that a channel message is sent to; `None` where a lookup finds nobody. */
  ghost function Audience<Id>(w: World<Id>, c: Id, members: seq<Id>): Option<seq<Id>> {
    if members == [] then Some([])
    else
      match Resolve(w, Of(w.info, members[0]).nick)
      case None => None
      case Some(t) =>
        match Audience(w, c, members[1..])
        case None => None
        case Some(others) =>
          var him := Of(w.info, t);
          Some((if him.fd != Of(w.info, c).fd && him.nick != w.botNick then [t] else []) + others)
  }

  /** Whom a PRIVMSG reaches. */
  ghost function Targets<Id>(w: World<Id>, c: Id, parts: seq<string>): Option<seq<Id>> {
    if |parts| < 3 then Some([])
    else if parts[1] == "" || parts[1][0] != '#' then
      match Resolve(w, parts[1])
      case None => Some([])
      case Some(t) => Some([t])
    else if parts[1] in w.channels && (c in w.channels[parts[1]].members || Of(w.info, c).nick == w.botNick) then
      Audience(w, c, w.channels[parts[1]].members)
    else Some([])
  }

  // ---------------------------------------------------------------- one line

  /** A command may be written with or without a slash. */
  predicate Says(parts: seq<string>, command: string) {
    |parts| > 0 && (parts[0] == command || parts[0] == "/" + command)
  }

  /** `handleCommand`: the ladder commands are open to all, the others to clients that climbed it. */
  ghost function Handle<Id>(w: World<Id>, c: Id, parts: seq<string>, closes: bool): Option<World<Id>> {
    var me := Of(w.info, c);
    if Says(parts, "CAP") then Some(w)
    else if Says(parts, "PASS") then Some(PassStep(w, c, parts))
    else if Says(parts, "NICK") then Some(NickStep(w, c, parts))
    else if Says(parts, "USER") then Some(UserStep(w, c, parts))
    else if !me.auth || !me.loged then Some(w)
    else if Says(parts, "JOIN") then Some(JoinStep(w, c, parts))
    else if Says(parts, "PRIVMSG") then (if Targets(w, c, parts).Some? then Some(w) else None)
    else if Says(parts, "LIST") then Some(w)
    else if Says(parts, "PART") then Some(PartStep(w, c, parts))
    else if Says(parts, "TOPIC") then Some(TopicStep(w, c, parts))
    else if Says(parts, "KICK") then KickStep(w, c, parts)
    else if Says(parts, "QUIT") then Some(if closes then Close(w, me.fd) else w)
    else Some(w)
  }

  /** A framed line; after a QUIT in the same batch there is no client left to handle it for. */
  ghost function LineStep<Id>(w: World<Id>, fd: int, line: string, closes: bool): Option<World<Id>> {
    if fd !in w.clients then None
    else if CommandParts(line) == [] then Some(w)
    else Handle(w, w.clients[fd], CommandParts(line), closes)
  }

  /** The lines of one received text. */
  ghost function RunLines<Id>(w: World<Id>, fd: int, lines: seq<string>, closes: bool): Option<World<Id>>
    decreases |lines|
  {
    if lines == [] then Some(w)
    else
      match LineStep(w, fd, lines[0], closes)
      case None => None
      case Some(w') => RunLines(w', fd, lines[1..], closes)
  }

  // ---------------------------------------------------------------- events and runs

  /** `closes`: whether the `close` that the event may call succeeds. */
  datatype Event<Id> =
    | Accept(c: Id, fd: int, ip: string)
    | Line(fd: int, line: string, closes: bool)
    | Hangup(fd: int, closes: bool)

  /** A new descriptor is none that is open. */
  ghost predicate Enabled<Id>(w: World<Id>, e: Event<Id>) {
    match e
    case Accept(c, fd, _) => c !in w.info && fd !in w.clients && fd != w.listener
    case Line(_, _, _) => true
    case Hangup(fd, _) => fd != w.listener
  }

  ghost function Step<Id>(w: World<Id>, e: Event<Id>): Option<World<Id>> {
    match e
    case Accept(c, fd, ip) =>
      Some(w.(info := w.info[c := Newcomer(fd, ip)], clients := w.clients[fd := c], fds := w.fds + [fd]))
    case Line(fd, line, closes) => LineStep(w, fd, line, closes)
    case Hangup(fd, closes) => Some(if closes then Close(w, fd) else w)
  }

  function Init<Id(==)>(password: string, botNick: string, listener: int): World<Id> {
    World(password, botNick, listener, map[], map[], [], map[], [listener])
  }

  ghost predicate IsRun<Id>(ws: seq<World<Id>>, es: seq<Event<Id>>) {
    && |ws| == |es| + 1
    && ws[0] == Init(ws[0].password, ws[0].botNick, ws[0].listener)
    && forall k :: 0 <= k < |es| ==> Enabled(ws[k], es[k]) && Step(ws[k], es[k]) == Some(ws[k + 1])
  }
}
