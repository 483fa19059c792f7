/**
 * The state of the `_irc_` server as a value: separate tables for clients, nicks, channels and polled descriptors.
 * A client is an identity `Id` that outlives its connection; what is known of it is looked up in `info`.
 */
module IrcState {
  import opened Lists
  import opened Text

  datatype ClientInfo = ClientInfo(
    fd: int,
    ip: string,
    nick: string,
    user: string,
    realName: string,
    auth: bool,
    hasNick: bool,
    loged: bool)

  /** A client that has just connected. */
  function Newcomer(fd: int, ip: string): ClientInfo {
    ClientInfo(fd, ip, "", "", "", false, false, false)
  }

  /** The operator is kept as a nickname only. */
  datatype Chan<Id> = Chan(name: string, key: string, topic: string, op: string, members: seq<Id>)

  /** No channel ever gets another limit than the one it is built with. */
  const USER_LIMIT: nat := 10

  datatype World<!Id(==)> = World(
    password: string,
    botNick: string,
    listener: int,
    info: map<Id, ClientInfo>,
    clients: map<int, Id>,
    nicks: seq<(int, string)>,
    channels: map<string, Chan<Id>>,
    fds: seq<int>)

  function Of<Id(==)>(info: map<Id, ClientInfo>, c: Id): ClientInfo {
    if c in info then info[c] else Newcomer(-1, "")
  }

  /** `isNickTaken`. */
  predicate NickTaken(nicks: seq<(int, string)>, nick: string) {
    exists i :: 0 <= i < |nicks| && nicks[i].1 == nick
  }

  /** The loop of `closeConnection`: the first entry of the descriptor goes, older ones may stay. */
  function DropEntry(nicks: seq<(int, string)>, fd: int): (r: seq<(int, string)>)
    ensures forall e <- r :: e in nicks
    ensures forall e <- nicks :: e.0 != fd ==> e in r
  {
    if nicks == [] then []
    else if nicks[0].0 == fd then nicks[1..]
    else [nicks[0]] + DropEntry(nicks[1..], fd)
  }

  /** `PollManager::removeFd`: every entry of the descriptor goes. */
  function Without(fds: seq<int>, fd: int): (r: seq<int>)
    ensures forall x :: x in r <==> x in fds && x != fd
  {
    if fds == [] then [] else (if fds[0] == fd then [] else [fds[0]]) + Without(fds[1..], fd)
  }

  /** `Server::getClient(nickname)` walks the client map by ascending descriptor. */
  ghost predicate IsLowest<Id>(info: map<Id, ClientInfo>, clients: map<int, Id>, nick: string, fd: int) {
    && fd in clients && Of(info, clients[fd]).nick == nick
    && forall other <- clients :: Of(info, clients[other]).nick == nick ==> fd <= other
  }

  ghost function ByNick<Id>(info: map<Id, ClientInfo>, clients: map<int, Id>, nick: string): (r: Option<Id>)
  {
    if exists fd :: IsLowest(info, clients, nick, fd)
    then var fd :| IsLowest(info, clients, nick, fd); Some(clients[fd])
    else None
  }

  /** The lookup finds the client with the lowest descriptor, and nobody only when nobody has the nick. */
  lemma ByNickIs<Id>(info: map<Id, ClientInfo>, clients: map<int, Id>, nick: string, fd: int)
    ensures IsLowest(info, clients, nick, fd) ==> ByNick(info, clients, nick) == Some(clients[fd])
    ensures (forall other <- clients :: Of(info, clients[other]).nick != nick) ==> ByNick(info, clients, nick) == None
  {
  }

  // ---------------------------------------------------------------- channels

  predicate IsMember<Id(==)>(channels: map<string, Chan<Id>>, key: string, c: Id) {
    key in channels && c in channels[key].members
  }

  /** `removeClientFromChannel` for a member; `None`: the channel is empty and goes. */
  function Leave<Id(==)>(info: map<Id, ClientInfo>, ch: Chan<Id>, c: Id): Option<Chan<Id>> {
    var members := RemoveFirst(ch.members, c);
    if members == [] then None
    else Some(ch.(members := members, op := if ch.op == Of(info, c).nick then Of(info, members[0]).nick else ch.op))
  }

  /** A client leaves the channel under a key of the table; the table loses an emptied channel by its name. */
  function LeaveAt<Id(==)>(info: map<Id, ClientInfo>, channels: map<string, Chan<Id>>, key: string,
                           c: Id): map<string, Chan<Id>> {
    if key !in channels || c !in channels[key].members then channels
    else
      match Leave(info, channels[key], c)
      case None => channels - {channels[key].name}
      case Some(ch) => channels[key := ch]
  }
}
