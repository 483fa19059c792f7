/**
 * The state of the 42-Ft_irc server as a value. A client is an identity `Id` that outlives its
 * connection; what the server knows about it is looked up in `info`.
 */
module FtState {
  import opened Text

  /** `taken` is the field `_alreadyRegistered`: the last NICK was refused. */
  datatype ClientInfo = ClientInfo(
    fd: int,
    host: string,
    nick: string,
    user: string,
    realName: string,
    password: string,
    login: bool,
    taken: bool)

  /** A client that has just connected. */
  function Newcomer(fd: int, host: string): ClientInfo {
    ClientInfo(fd, host, "*", "*", "*", "*", false, false)
  }

  datatype Chan<Id> = Chan(
    name: string,
    clients: seq<Id>,
    operators: seq<Id>,
    bans: seq<Id>,
    invites: seq<Id>,
    limit: nat,
    inviteOnly: bool,
    password: string,
    topic: string)

  /** `unset` is what an `int` reads that was never set. */
  datatype World<!Id(==)> = World(
    password: string,
    unset: Int32,
    info: map<Id, ClientInfo>,
    live: seq<Id>,
    channels: seq<Chan<Id>>)

  function NewChan<Id>(name: string): Chan<Id> {
    Chan(name, [], [], [], [], 0, false, "", "")
  }

  function Of<Id(==)>(info: map<Id, ClientInfo>, c: Id): ClientInfo {
    if c in info then info[c] else Newcomer(-1, "")
  }

  // ---------------------------------------------------------------- searching a vector of clients

  function ByFd<Id(==)>(info: map<Id, ClientInfo>, s: seq<Id>, fd: int): (r: Option<Id>)
    ensures r.Some? ==> r.value in s && Of(info, r.value).fd == fd
    ensures r.None? ==> forall c <- s :: Of(info, c).fd != fd
  {
    if s == [] then None else if Of(info, s[0]).fd == fd then Some(s[0]) else ByFd(info, s[1..], fd)
  }

  function ByNick<Id(==)>(info: map<Id, ClientInfo>, s: seq<Id>, nick: string): (r: Option<Id>)
    ensures r.Some? ==> r.value in s && Of(info, r.value).nick == nick
    ensures r.None? ==> forall c <- s :: Of(info, c).nick != nick
  {
    if s == [] then None else if Of(info, s[0]).nick == nick then Some(s[0]) else ByNick(info, s[1..], nick)
  }

  function ByHost<Id(==)>(info: map<Id, ClientInfo>, s: seq<Id>, host: string): (r: Option<Id>)
    ensures r.Some? ==> r.value in s && Of(info, r.value).host == host
    ensures r.None? ==> forall c <- s :: Of(info, c).host != host
  {
    if s == [] then None else if Of(info, s[0]).host == host then Some(s[0]) else ByHost(info, s[1..], host)
  }

  /** The entries with a host, in order. */
  function WithHost<Id(==)>(info: map<Id, ClientInfo>, s: seq<Id>, host: string): (r: seq<Id>)
    ensures forall c <- r :: c in s && Of(info, c).host == host
    ensures forall c <- s :: Of(info, c).host == host ==> c in r
  {
    if s == [] then []
    else (if Of(info, s[0]).host == host then [s[0]] else []) + WithHost(info, s[1..], host)
  }

  /** The index of the first channel with a name. */
  function ByName<Id>(channels: seq<Chan<Id>>, name: string): (r: Option<nat>)
    ensures r.Some? ==> r.value < |channels| && channels[r.value].name == name
    ensures r.None? ==> forall i :: 0 <= i < |channels| ==> channels[i].name != name
    ensures r.Some? ==> forall i :: 0 <= i < r.value ==> channels[i].name != name
    decreases |channels|
  {
    if channels == [] then None
    else if channels[0].name == name then Some(0)
    else
      match ByName(channels[1..], name)
      case None => None
      case Some(i) => Some(i + 1)
  }
}
