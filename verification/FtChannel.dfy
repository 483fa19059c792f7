/** The channel operations of 42-Ft_irc on channel values. */
module FtChannel {
  import opened Lists
  import opened Text
  import opened FtState

  datatype JoinResult<Id> = Joined(ch: Chan<Id>) | Banned | Full | InviteOnly

  /**
   * `Channel::addClient`: the ban list goes by host, the limit is compared for equality, the first one in becomes
   * operator.
   */
  function Admit<Id(==)>(info: map<Id, ClientInfo>, ch: Chan<Id>, c: Id): JoinResult<Id> {
    if ByHost(info, ch.bans, Of(info, c).host).Some? then Banned
    else if ch.limit != 0 && |ch.clients| == ch.limit then Full
    else if ch.inviteOnly && ByNick(info, ch.invites, Of(info, c).nick).None? then InviteOnly
    else Joined(ch.(operators := if ch.clients == [] then ch.operators + [c] else ch.operators,
                    clients := ch.clients + [c]))
  }

  /**
   * `Channel::removeClient`: erases the first entry of the client and, if its nick is an operator's, its operator
   * entry.
   */
  function Drop<Id(==)>(info: map<Id, ClientInfo>, ch: Chan<Id>, c: Id): Chan<Id> {
    if c !in ch.clients then ch
    else
      var isOp := ByNick(info, ch.operators, Of(info, c).nick).Some?;
      ch.(operators := if isOp then RemoveFirst(ch.operators, c)
          else ch.operators, clients := RemoveFirst(ch.clients, c))
  }

  /** `removeClient` on a pointer that may be null. */
  function DropOption<Id(==)>(info: map<Id, ClientInfo>, ch: Chan<Id>, c: Option<Id>): Chan<Id> {
    match c
    case None => ch
    case Some(x) => Drop(info, ch, x)
  }

  /** `Channel::addBan`, when it does not throw: one ban a host, and one entry of the client is erased. */
  function Ban<Id(==)>(info: map<Id, ClientInfo>, ch: Chan<Id>, c: Id): Option<Chan<Id>> {
    if ByHost(info, ch.bans, Of(info, c).host).Some? then None
    else Some(Drop(info, ch.(bans := ch.bans + [c]), c))
  }

  /** `Channel::removeBan`: the first ban with the host of the client. */
  function Unban<Id(==)>(info: map<Id, ClientInfo>, ch: Chan<Id>, c: Id): Option<Chan<Id>> {
    match ByHost(info, ch.bans, Of(info, c).host)
    case None => None
    case Some(b) => Some(ch.(bans := RemoveFirst(ch.bans, b)))
  }

  /** No two entries have the same host. */
  ghost predicate HostsDistinct<Id>(info: map<Id, ClientInfo>, s: seq<Id>) {
    forall i, j :: 0 <= i < j < |s| ==> Of(info, s[i]).host != Of(info, s[j]).host
  }

  /** What every channel keeps. */
  ghost predicate ChanOk<Id>(info: map<Id, ClientInfo>, ch: Chan<Id>) {
    && Distinct(ch.operators)
    && (forall c <- ch.operators :: c in ch.clients)
    && (forall c <- ch.clients :: c in info && info[c].login)
    && (forall c <- ch.bans :: c in info)
    && HostsDistinct(info, ch.bans)
    && Distinct(ch.invites)
  }

  lemma AdmitOk<Id>(info: map<Id, ClientInfo>, ch: Chan<Id>, c: Id)
    requires ChanOk(info, ch) && c in info && info[c].login && Admit(info, ch, c).Joined?
    ensures ChanOk(info, Admit(info, ch, c).ch)
  {
    if ch.operators != [] {
      assert ch.operators[0] in ch.clients;
    }
  }

  lemma DropOk<Id>(info: map<Id, ClientInfo>, ch: Chan<Id>, c: Id)
    requires ChanOk(info, ch)
    ensures ChanOk(info, Drop(info, ch, c))
  {
    if c in ch.clients {
      RemoveFirstDistinct(ch.operators, c);
      var r := Drop(info, ch, c);
      assert c !in r.operators;
    }
  }

  lemma BanOk<Id>(info: map<Id, ClientInfo>, ch: Chan<Id>, c: Id)
    requires ChanOk(info, ch) && c in info && Ban(info, ch, c).Some?
    ensures ChanOk(info, Ban(info, ch, c).value)
  {
    DropOk(info, ch.(bans := ch.bans + [c]), c);
  }

  lemma {:induction false} RemoveFirstHosts<Id>(info: map<Id, ClientInfo>, s: seq<Id>, c: Id)
    requires HostsDistinct(info, s)
    ensures HostsDistinct(info, RemoveFirst(s, c))
  {
    if s != [] && s[0] != c {
      RemoveFirstHosts(info, s[1..], c);
      var r := RemoveFirst(s[1..], c);
      forall j | 0 <= j < |r| ensures Of(info, s[0]).host != Of(info, r[j]).host {
        assert r[j] in s[1..];
      }
      HostsCons(info, s[0], r);
    }
  }

  lemma HostsCons<Id>(info: map<Id, ClientInfo>, x: Id, s: seq<Id>)
    requires HostsDistinct(info, s)
    requires forall j :: 0 <= j < |s| ==> Of(info, x).host != Of(info, s[j]).host
    ensures HostsDistinct(info, [x] + s)
  {
    var t := [x] + s;
    forall i, j | 0 <= i < j < |t| ensures Of(info, t[i]).host != Of(info, t[j]).host {
      assert t[j] == s[j - 1] && (i > 0 ==> t[i] == s[i - 1]);
    }
  }
}
