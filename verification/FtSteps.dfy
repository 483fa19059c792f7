/**
 * What one line does to the 42-Ft_irc server. `None` stands for a step the program does not survive:
 * it follows a null pointer, indexes past a vector, or lets an exception out of its main loop.
 */
module FtSteps {
  import opened Lists
  import opened Text
  import opened Tokenizer
  import opened FtParser
  import opened FtState
  import opened FtChannel

  function With<Id(==)>(w: World<Id>, i: nat, ch: Chan<Id>): World<Id>
    requires i < |w.channels|
  {
    w.(channels := w.channels[i := ch])
  }

  // ---------------------------------------------------------------- the gate before a handler

  datatype Gate = Crash | Ignored | Run(command: string)

  /** `Checker::check` and the login test of `Execute` for a line from `fd`. */
  function CheckLine<Id(==)>(w: World<Id>, line: string, fd: int): Gate {
    var client := ByFd(w.info, w.live, fd);
    var command := CommandOf(line);
    var trimmed := Trim(line);
    if ' ' !in trimmed || command !in COMMANDS then (if client.None? then Crash else Ignored)
    else if !Accepts(command, trimmed, FormatOf(trimmed)) then Ignored
    else if command in {"QUIT", "USER", "NICK", "PASS"} then Run(command)
    else if client.None? then Crash
    else if Of(w.info, client.value).login then Run(command)
    else Ignored
  }

  // ---------------------------------------------------------------- leaving

  /** The first live client with a descriptor is taken off the list. */
  function DropFd<Id(==)>(info: map<Id, ClientInfo>, live: seq<Id>, fd: int): seq<Id> {
    match ByFd(info, live, fd)
    case None => live
    case Some(c) => RemoveFirst(live, c)
  }

  function Leave<Id(==)>(info: map<Id, ClientInfo>, ch: Chan<Id>, fd: int): Chan<Id> {
    DropOption(info, ch, ByFd(info, ch.clients, fd))
  }

  function LeaveAll<Id(==)>(info: map<Id, ClientInfo>, channels: seq<Chan<Id>>, fd: int): (r: seq<Chan<Id>>)
    ensures |r| == |channels| && forall i :: 0 <= i < |channels| ==> r[i] == Leave(info, channels[i], fd)
  {
    seq(|channels|, i requires 0 <= i < |channels| => Leave(info, channels[i], fd))
  }

  /** `Server::removeClient` and the `close` it ends with, which searches the list once more. */
  function ServerRemove<Id(==)>(w: World<Id>, fd: int): World<Id> {
    w.(live := DropFd(w.info, DropFd(w.info, w.live, fd), fd), channels := LeaveAll(w.info, w.channels, fd))
  }

  /** The text of a QUIT after it was announced to `k` others: each announcement splits it again at the colons. */
  function QuitText(message: string, k: nat): Option<string>
    decreases k
  {
    if k == 0 then Some(message)
    else
      var words := Split(message, ":");
      if |words| < 2 then None else QuitText(words[1], k - 1)
  }

  function Others<Id(==)>(info: map<Id, ClientInfo>, s: seq<Id>, fd: int): nat {
    if s == [] then 0 else (if Of(info, s[0]).fd != fd then 1 else 0) + Others(info, s[1..], fd)
  }

  /** The loop of `execQuit` over the channels that list the descriptor. */
  function QuitChannels<Id(==)>(info: map<Id, ClientInfo>, channels: seq<Chan<Id>>, c: Option<Id>, fd: int,
                                message: string): Option<seq<Chan<Id>>>
    decreases |channels|
  {
    if channels == [] then Some([])
    else
      var ch := channels[0];
      var here := ByFd(info, ch.clients, fd).Some?;
      var k := if here then Others(info, ch.clients, fd) else 0;
      if k > 0 && c.None? then None
      else
        match QuitText(message, k)
        case None => None
        case Some(rest) =>
          match QuitChannels(info, channels[1..], c, fd, rest)
          case None => None
          case Some(tail) => Some([if here then DropOption(info, ch, c) else ch] + tail)
  }

  function QuitStep<Id(==)>(w: World<Id>, line: string, fd: int): Option<World<Id>> {
    match QuitChannels(w.info, w.channels, ByFd(w.info, w.live, fd), fd, line)
    case None => None
    case Some(channels) => Some(ServerRemove(w.(channels := channels), fd))
  }

  // ---------------------------------------------------------------- registering

  function SetInfo<Id(==)>(w: World<Id>, c: Id, i: ClientInfo): World<Id> {
    w.(info := w.info[c := i])
  }

  function PassStep<Id(==)>(w: World<Id>, line: string, fd: int): Option<World<Id>> {
    match ByFd(w.info, w.live, fd)
    case None => None
    case Some(c) => Some(SetInfo(w, c, Of(w.info, c).(password := ParsedInfo(line).function_)))
  }

  /** The record after a NICK with a free nick; a nick refused before makes it a late login. */
  function Renamed(me: ClientInfo, nick: string, serverPassword: string): Option<ClientInfo> {
    if !me.taken then Some(me.(nick := nick))
    else if me.password == serverPassword then Some(me.(nick := nick, taken := false, login := true))
    else None  // PasswordMismatchException is not caught on this path
  }

  function NickStep<Id(==)>(w: World<Id>, line: string, fd: int): Option<World<Id>> {
    match ByFd(w.info, w.live, fd)
    case None => None
    case Some(c) =>
      var nick := ParsedInfo(line).function_;
      var me := Of(w.info, c);
      if ByNick(w.info, w.live, nick).Some? then Some(SetInfo(w, c, me.(taken := true)))
      else
        match Renamed(me, nick, w.password)
        case None => None
        case Some(i) => Some(SetInfo(w, c, i))
  }

  /** The record after a USER; it logs in unless the password is wrong or the nick was refused. */
  function Registered(me: ClientInfo, u: UserInfo, serverPassword: string): ClientInfo {
    me.(user := u.userName, realName := u.realName, login := me.login || (me.password == serverPassword && !me.taken))
  }

  function UserStep<Id(==)>(w: World<Id>, line: string, fd: int): Option<World<Id>> {
    match (ByFd(w.info, w.live, fd), ParsedUser(line))
    case (Some(c), Some(u)) =>
      var me := Of(w.info, c);
      var w' := SetInfo(w, c, Registered(me, u, w.password));
      Some(if me.password != w.password then ServerRemove(w', fd) else w')
    case _ => None
  }

  // ---------------------------------------------------------------- channel commands

  function JoinStep<Id(==)>(w: World<Id>, line: string, fd: int): Option<World<Id>> {
    match ByFd(w.info, w.live, fd)
    case None => None
    case Some(c) =>
      var p := ParsedInfo(line);
      match ByName(w.channels, p.function_)
      case None =>
        match Admit(w.info, NewChan(p.function_), c) {
          case Joined(ch) => Some(w.(channels := w.channels + [ch]))
          case _ => Some(w)
        }
      case Some(i) =>
        var ch := w.channels[i];
        if ch.password != "" && ch.password != p.value then Some(w)
        else
          match Admit(w.info, ch, c)
          case Joined(joined) => Some(With(w, i, joined))
          case _ => Some(w)
  }

  function PartStep<Id(==)>(w: World<Id>, line: string, fd: int): Option<World<Id>> {
    match ByFd(w.info, w.live, fd)
    case None => None
    case Some(c) =>
      match ByName(w.channels, ParsedInfo(line).function_)
      case None => Some(w)
      case Some(i) => Some(With(w, i, Drop(w.info, w.channels[i], c)))
  }

  /** The line of a KICK without its reason; `None` where the reason is read past the split. */
  function KickHead(line: string): Option<string> {
    if ':' !in line then Some(line)
    else
      var words := Split(line, ":");
      if |words| < 2 then None else Some(Trim(words[0]))
  }

  function KickStep<Id(==)>(w: World<Id>, line: string, fd: int): Option<World<Id>> {
    match KickHead(line)
    case None => None
    case Some(head) => KickFrom(w, ParsedInfo(head), fd)
  }

  function KickFrom<Id(==)>(w: World<Id>, p: ParseInfo, fd: int): Option<World<Id>> {
    match ByName(w.channels, p.function_)
    case None => None
    case Some(i) =>
      var ch := w.channels[i];
      if ByFd(w.info, ch.operators, fd).None? then Some(w)
      else
        match ByNick(w.info, ch.clients, p.value)
        case None => Some(w)
        case Some(x) => Some(With(w, i, Drop(w.info, ch, x)))
  }

  function InviteStep<Id(==)>(w: World<Id>, line: string, fd: int): Option<World<Id>> {
    var p := ParsedInfo(line);
    match ByName(w.channels, p.value)
    case None => Some(w)
    case Some(i) =>
      var ch := w.channels[i];
      if ByFd(w.info, ch.operators, fd).None? then Some(w)
      else
        match ByNick(w.info, w.live, p.function_)
        case None => Some(w)
        case Some(x) =>
          if x in ch.invites then None  // AlreadyInviteException is not caught
          else Some(With(w, i, ch.(invites := ch.invites + [x])))
  }

  function TopicStep<Id(==)>(w: World<Id>, line: string, fd: int): Option<World<Id>> {
    var p := ParsedInfo(line);
    match ByName(w.channels, p.function_)
    case None => None
    case Some(i) =>
      var ch := w.channels[i];
      if ByFd(w.info, ch.operators, fd).None? || p.value == "" then Some(w)
      else
        var words := Split(line, ":");
        if |words| < 2 then None else Some(With(w, i, ch.(topic := words[1])))
  }

  /** PRIVMSG and NOTICE only send, but follow the sender and index the third word. */
  function TalkStep<Id(==)>(w: World<Id>, line: string, fd: int): Option<World<Id>> {
    if ByFd(w.info, w.live, fd).None? || |Words(line)| < 3 then None else Some(w)
  }

  /** WHO follows the sender's entry of the channel it names. */
  predicate WhoOk<Id(==)>(w: World<Id>, line: string, fd: int) {
    match ByName(w.channels, ParsedInfo(line).function_)
    case None => true
    case Some(i) => ByFd(w.info, w.channels[i].clients, fd).Some?
  }

  // ---------------------------------------------------------------- modes

  /** `size_t _limit` set from an `int`: the one number below 2^64 that is congruent to it. */
  function LimitOf(n: Int32): (limit: nat)
    ensures limit < 0x1_0000_0000_0000_0000 && (limit - n) % 0x1_0000_0000_0000_0000 == 0
  {
    if n >= 0 then n else 0x1_0000_0000_0000_0000 + n
  }

  function OperatorStep<Id(==)>(w: World<Id>, i: nat, m: ModeInfo): Option<World<Id>>
    requires i < |w.channels|
  {
    var ch := w.channels[i];
    match ByNick(w.info, ch.clients, m.parameters)
    case None => if m.status then None else Some(w)
    case Some(c) =>
      if !m.status then Some(With(w, i, ch.(operators := RemoveFirst(ch.operators, c))))
      else if c in ch.operators then Some(w)
      else Some(With(w, i, ch.(operators := ch.operators + [c])))
  }

  /** The limit is set inside the loop over the members. */
  function LimitStep<Id(==)>(w: World<Id>, i: nat, m: ModeInfo): Option<World<Id>>
    requires i < |w.channels|
  {
    var ch := w.channels[i];
    if ch.clients == [] then Some(w)
    else Some(With(w, i, ch.(limit := if m.status then LimitOf(ToInt(m.parameters, w.unset)) else 0)))
  }

  const WHO_COMMAND: string := "WHO "

  /** The WHO that a ban sends through `Execute` on behalf of a member. */
  predicate EchoOk<Id(==)>(w: World<Id>, name: string, fd: int) {
    match CheckLine(w, WHO_COMMAND + name, fd)
    case Crash => false
    case Ignored => true
    case Run(_) => WhoOk(w, WHO_COMMAND + name, fd)
  }

  predicate EchoAllOk<Id(==)>(w: World<Id>, i: nat)
    requires i < |w.channels|
  {
    forall c <- w.channels[i].clients :: EchoOk(w, w.channels[i].name, Of(w.info, c).fd)
  }

  function BanMask(parameters: string): string {
    if '@' in parameters then parameters else "*!*@" + parameters
  }

  /** +b: the first member entry with the host is banned and erased. */
  function SetBan<Id(==)>(w: World<Id>, i: nat, mask: string): Option<World<Id>>
    requires i < |w.channels|
  {
    var ch := w.channels[i];
    var words := Split(BanMask(mask), "@");
    if |words| < 2 then None
    else
      var victims := WithHost(w.info, ch.clients, words[1]);
      if victims == [] then if EchoAllOk(w, i) then Some(w) else None
      else
        match Ban(w.info, ch, victims[0])
        case None => Some(w)
        case Some(banned) =>
          var w' := With(w, i, banned);
          // the second entry with the host runs into AlreadyBanException
          if |victims| > 1 || EchoAllOk(w', i) then Some(w') else None
  }

  /** -b: the first ban with the host goes. */
  function ClearBan<Id(==)>(w: World<Id>, i: nat, mask: string): Option<World<Id>>
    requires i < |w.channels|
  {
    var ch := w.channels[i];
    var words := Split(BanMask(mask), "@");
    if !EchoAllOk(w, i) || |words| < 2 then None
    else
      match ByHost(w.info, ch.bans, Trim(words[1]))
      case None => if ch.bans == [] then Some(w) else None
      case Some(b) =>
        match Unban(w.info, ch, b)
        case None => Some(w)
        case Some(unbanned) => Some(With(w, i, unbanned))
  }

  function BanStep<Id(==)>(w: World<Id>, i: nat, m: ModeInfo): Option<World<Id>>
    requires i < |w.channels|
  {
    if !m.status then ClearBan(w, i, m.parameters)
    else if m.parameters == "" then Some(w)
    else SetBan(w, i, m.parameters)
  }

  function ApplyMode<Id(==)>(w: World<Id>, i: nat, m: ModeInfo): Option<World<Id>>
    requires i < |w.channels|
  {
    var ch := w.channels[i];
    match LowerChar(m.key)
    case 'o' => OperatorStep(w, i, m)
    case 'b' => BanStep(w, i, m)
    case 'l' => LimitStep(w, i, m)
    case 'i' => Some(With(w, i, ch.(inviteOnly := m.status)))
    case 'k' => Some(With(w, i, ch.(password := m.parameters)))
    case 't' => Some(With(w, i, ch.(topic := m.parameters)))
    case _ => Some(w)
  }

  function ModeStep<Id(==)>(w: World<Id>, line: string, fd: int): Option<World<Id>> {
    if ' ' !in line || |Words(line)| < 3 then Some(w)
    else
      match ParsedMode(line)
      case None => None
      case Some(m) =>
        match ByName(w.channels, m.channel)
        case None => None
        case Some(i) =>
          if ByFd(w.info, w.channels[i].operators, fd).None? then Some(w) else ApplyMode(w, i, m)
  }

  // ---------------------------------------------------------------- one line, many lines

  function Handle<Id(==)>(w: World<Id>, command: string, line: string, fd: int): Option<World<Id>> {
    match command
    case "QUIT" => QuitStep(w, line, fd)
    case "USER" => UserStep(w, line, fd)
    case "NICK" => NickStep(w, line, fd)
    case "PASS" => PassStep(w, line, fd)
    case "PRIVMSG" => TalkStep(w, line, fd)
    case "NOTICE" => TalkStep(w, line, fd)
    case "JOIN" => JoinStep(w, line, fd)
    case "PART" => PartStep(w, line, fd)
    case "WHO" => if WhoOk(w, line, fd) then Some(w) else None
    case "MODE" => ModeStep(w, line, fd)
    case "KICK" => KickStep(w, line, fd)
    case "INVITE" => InviteStep(w, line, fd)
    case "TOPIC" => TopicStep(w, line, fd)
    case _ => Some(w)
  }

  function LineStep<Id(==)>(w: World<Id>, line: string, fd: int): Option<World<Id>> {
    match CheckLine(w, line, fd)
    case Crash => None
    case Ignored => Some(w)
    case Run(command) => Handle(w, command, line, fd)
  }

  /** A handled line: non-empty, with no CRLF except possibly at its end. */
  predicate SingleLine(message: string) {
    |Split(message, CRLF)| == 1
  }

  /** The pieces before the first empty one. */
  function UntilEmpty(words: seq<string>): seq<string> {
    if words == [] || words[0] == "" then [] else [words[0]] + UntilEmpty(words[1..])
  }

  /** The lines that a received text is handled as. */
  function LinesOf(message: string): seq<string> {
    if SingleLine(message) then [message] else UntilEmpty(Split(message, CRLF))
  }

  function RunLines<Id(==)>(w: World<Id>, lines: seq<string>, fd: int): Option<World<Id>>
    decreases |lines|
  {
    if lines == [] then Some(w)
    else
      match LineStep(w, lines[0], fd)
      case None => None
      case Some(w') => RunLines(w', lines[1..], fd)
  }

  // ---------------------------------------------------------------- events and runs

  datatype Event<Id> = Connect(c: Id, fd: int, host: string) | Line(fd: int, line: string) | Hangup(fd: int)

  /** What the kernel and the framing guarantee about an event. */
  ghost predicate Enabled<Id>(w: World<Id>, e: Event<Id>) {
    match e
    case Connect(c, fd, _) => c !in w.info && ByFd(w.info, w.live, fd).None?
    case Line(_, line) => SingleLine(line)
    case Hangup(_) => true
  }

  function Step<Id(==)>(w: World<Id>, e: Event<Id>): Option<World<Id>> {
    match e
    case Connect(c, fd, host) => Some(w.(info := w.info[c := Newcomer(fd, host)], live := w.live + [c]))
    case Line(fd, line) => LineStep(w, line, fd)
    case Hangup(fd) => Some(ServerRemove(w, fd))
  }

  function Init<Id(==)>(password: string, unset: Int32): World<Id> {
    World(password, unset, map[], [], [])
  }

  /** A run: the worlds it passes through and the events between them. */
  ghost predicate IsRun<Id>(ws: seq<World<Id>>, es: seq<Event<Id>>) {
    && |ws| == |es| + 1
    && ws[0] == Init(ws[0].password, ws[0].unset)
    && forall k :: 0 <= k < |es| ==> Enabled(ws[k], es[k]) && Step(ws[k], es[k]) == Some(ws[k + 1])
  }
}
