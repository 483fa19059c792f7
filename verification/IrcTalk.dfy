/** Whom a channel message of `_irc_` reaches, although members are looked up again by nickname. */
module IrcTalk {
  import opened Lists
  import opened Text
  import opened IrcState
  import opened IrcSteps
  import opened IrcInvariant
  import opened IrcSuccession

  /** A connected client that has no nick yet; it is found under the empty nick. */
  ghost predicate NicklessBelow<Id>(w: World<Id>, fd: int) {
    exists other :: other in w.clients && other < fd && !Of(w.info, w.clients[other]).hasNick
  }

  /**
   * The lookup by nick finds the member itself, unless its nick is empty and a client without a nick
   * has a lower descriptor.
   */
  lemma MemberResolvesIff<Id>(w: World<Id>, key: string, m: Id)
    requires Inv(w) && Present(w) && key in w.channels && m in w.channels[key].members
    ensures Resolve(w, Of(w.info, m).nick) == Some(m)
            <==> Of(w.info, m).nick != "" || !NicklessBelow(w, Of(w.info, m).fd)
  {
    hide PollOk, NicksOk, ByNick;
    assert Connected(w, m) && ChanOk(w.info, key, w.channels[key]);
    var me := w.info[m];
    if me.nick != "" || !NicklessBelow(w, me.fd) {
      SameNick(w, m);
      ByNickIs(w.info, w.clients, me.nick, me.fd);
    } else {
      var low := LowestBelow(w, me.fd);
      ByNickIs(w.info, w.clients, "", low);
    }
  }

  /** Another connected client has the nick of a member only if both nicks are empty and it has not set one. */
  lemma SameNick<Id>(w: World<Id>, m: Id)
    requires Inv(w) && Connected(w, m) && w.info[m].hasNick
    ensures forall other <- w.clients :: Of(w.info, w.clients[other]).nick == w.info[m].nick ==>
              other == w.info[m].fd || (w.info[m].nick == "" && !Of(w.info, w.clients[other]).hasNick)
  {
    forall other | other in w.clients && Of(w.info, w.clients[other]).nick == w.info[m].nick && other != w.info[m].fd
      ensures w.info[m].nick == "" && !Of(w.info, w.clients[other]).hasNick
    {
      assert Climbed(w.info[w.clients[other]]);
      if Of(w.info, w.clients[other]).hasNick {
        LiveNicksUnique(w, other, w.info[m].fd);
      }
    }
  }

  /** Among finitely many clients there is a lowest one with the empty nick. */
  lemma {:induction false} LowestBelow<Id>(w: World<Id>, fd: int) returns (low: int)
    requires Inv(w) && NicklessBelow(w, fd)
    ensures low < fd && IsLowest(w.info, w.clients, "", low)
  {
    var other :| other in w.clients && other < fd && !Of(w.info, w.clients[other]).hasNick;
    assert Climbed(w.info[w.clients[other]]);
    var candidates := set f | f in w.clients && Of(w.info, w.clients[f]).nick == "";
    assert other in candidates;
    low := Least(candidates, other);
    assert forall f <- w.clients :: Of(w.info, w.clients[f]).nick == "" ==> f in candidates;
  }

  lemma {:induction false} Least(s: set<int>, member: int) returns (low: int)
    requires member in s
    ensures low in s && forall x <- s :: low <= x
    decreases |s|
  {
    var rest := s - {member};
    low := member;
    if other :| other in rest {
      var least := Least(rest, other);
      low := if least < member then least else member;
      assert forall x <- s :: x == member || x in rest;
    } else {
      assert forall x <- s :: x == member || x in rest;
    }
  }

  /** The members other than the sender and the bot, in order. */
  function OtherMembers<Id(==)>(w: World<Id>, c: Id, members: seq<Id>): (r: seq<Id>)
    ensures forall m <- r :: m in members && Of(w.info, m).fd != Of(w.info, c).fd && Of(w.info, m).nick != w.botNick
    ensures forall m <- members :: Of(w.info, m).fd != Of(w.info, c).fd && Of(w.info, m).nick != w.botNick ==> m in r
  {
    if members == [] then []
    else
      var him := Of(w.info, members[0]);
      (if him.fd != Of(w.info, c).fd && him.nick != w.botNick then [members[0]] else [])
        + OtherMembers(w, c, members[1..])
  }

  lemma {:induction false} OthersDistinct<Id>(w: World<Id>, c: Id, members: seq<Id>)
    requires Distinct(members)
    ensures Distinct(OtherMembers(w, c, members))
  {
    if members != [] {
      OthersDistinct(w, c, members[1..]);
      assert members[0] !in members[1..];
      assert members[0] !in OtherMembers(w, c, members[1..]);
    }
  }

  /** A message for `t` is not sent: it is the sender or has the nick of the bot. */
  predicate Skipped<Id(==)>(w: World<Id>, c: Id, t: Id) {
    Of(w.info, t).fd == Of(w.info, c).fd || Of(w.info, t).nick == w.botNick
  }

  lemma {:induction false} AudienceIs<Id>(w: World<Id>, c: Id, members: seq<Id>)
    requires forall m <- members :: Resolve(w, Of(w.info, m).nick).Some?
    requires forall m <- members :: var t := Resolve(w, Of(w.info, m).nick).value;
                                    t == m || (Skipped(w, c, t) && Skipped(w, c, m))
    ensures Audience(w, c, members) == Some(OtherMembers(w, c, members))
  {
    hide Resolve;
    if members != [] {
      assert Resolve(w, Of(w.info, members[0]).nick).Some?;
      AudienceIs(w, c, members[1..]);
    }
  }

  /** Whoever a member's nick leads to gets the message, unless it is skipped; and nobody else does. */
  lemma {:induction false} AudienceHas<Id>(w: World<Id>, c: Id, members: seq<Id>, t: Id)
    requires Audience(w, c, members).Some?
    ensures t in Audience(w, c, members).value
       <==> exists m :: m in members && Resolve(w, Of(w.info, m).nick) == Some(t) && !Skipped(w, c, t)
  {
    hide Resolve;
    if members != [] {
      AudienceHas(w, c, members[1..], t);
      assert forall m :: m in members <==> m == members[0] || m in members[1..];
    }
  }

  /** A member that cannot be resolved leads to a client that is on no channel, because it has no nick yet. */
  lemma Stranger<Id>(w: World<Id>, key: string, m: Id) returns (t: Id)
    requires Inv(w) && Present(w) && key in w.channels && m in w.channels[key].members
    requires Of(w.info, m).nick == "" && NicklessBelow(w, Of(w.info, m).fd)
    ensures Resolve(w, "") == Some(t) && Of(w.info, t).nick == "" && t !in w.channels[key].members
    ensures forall c <- w.channels[key].members :: Of(w.info, t).fd != Of(w.info, c).fd
  {
    hide PollOk, NicksOk, ByNick;
    assert Connected(w, m) && ChanOk(w.info, key, w.channels[key]);
    var low := LowestBelow(w, w.info[m].fd);
    ByNickIs(w.info, w.clients, "", low);
    t := w.clients[low];
    var other :| other in w.clients && other < w.info[m].fd && !Of(w.info, w.clients[other]).hasNick;
    assert Climbed(w.info[w.clients[other]]);
    SameNick(w, m);
    assert !Of(w.info, t).hasNick;
    assert forall c <- w.channels[key].members :: Connected(w, c);
  }

  /**
   * A PRIVMSG of a member reaches every other member but the bot exactly once, in the order of the list, if and
   * only if every member can be looked up; a bot without a name hides the members that cannot.
   */
  lemma ChannelAudience<Id>(w: World<Id>, c: Id, parts: seq<string>)
    requires Inv(w) && Present(w) && |parts| >= 3 && parts[1] in w.channels && parts[1] != "" && parts[1][0] == '#'
    requires c in w.channels[parts[1]].members
    ensures Targets(w, c, parts) == Some(OtherMembers(w, c, w.channels[parts[1]].members))
       <==> w.botNick == "" || forall m <- w.channels[parts[1]].members ::
              Of(w.info, m).nick != "" || !NicklessBelow(w, Of(w.info, m).fd)
    ensures Distinct(OtherMembers(w, c, w.channels[parts[1]].members))
    ensures forall m :: m in OtherMembers(w, c, w.channels[parts[1]].members)
              <==> m in w.channels[parts[1]].members && m != c && Of(w.info, m).nick != w.botNick
  {
    hide Inv, NicklessBelow, Resolve, Connected, Present;
    var members := w.channels[parts[1]].members;
    if w.botNick == "" || forall m <- members :: Of(w.info, m).nick != "" || !NicklessBelow(w, Of(w.info, m).fd) {
      AllReached(w, c, parts[1]);
    } else {
      var m :| m in members && Of(w.info, m).nick == "" && NicklessBelow(w, Of(w.info, m).fd);
      var t := Stranger(w, parts[1], m);
      if Audience(w, c, members).Some? {
        AudienceHas(w, c, members, t);
        assert t in Audience(w, c, members).value;
      }
    }
    MembersApartFromSender(w, c, parts[1]);
  }

  lemma AllReached<Id>(w: World<Id>, c: Id, key: string)
    requires Inv(w) && Present(w) && key in w.channels && c in w.channels[key].members
    requires w.botNick == "" || forall m <- w.channels[key].members ::
               Of(w.info, m).nick != "" || !NicklessBelow(w, Of(w.info, m).fd)
    ensures Audience(w, c, w.channels[key].members) == Some(OtherMembers(w, c, w.channels[key].members))
  {
    hide Inv, NicklessBelow, Resolve, Connected, Present;
    var members := w.channels[key].members;
    forall m | m in members
      ensures Resolve(w, Of(w.info, m).nick).Some?
      ensures var t := Resolve(w, Of(w.info, m).nick).value; t == m || (Skipped(w, c, t) && Skipped(w, c, m))
    {
      MemberResolvesIff(w, key, m);
      if Of(w.info, m).nick == "" && NicklessBelow(w, Of(w.info, m).fd) {
        var t := Stranger(w, key, m);
      }
    }
    AudienceIs(w, c, members);
  }

  lemma MembersApartFromSender<Id>(w: World<Id>, c: Id, key: string)
    requires Inv(w) && Present(w) && key in w.channels && c in w.channels[key].members
    ensures Distinct(OtherMembers(w, c, w.channels[key].members))
    ensures forall m :: m in OtherMembers(w, c, w.channels[key].members)
              <==> m in w.channels[key].members && m != c && Of(w.info, m).nick != w.botNick
  {
    hide Inv, Connected;
    var members := w.channels[key].members;
    ChannelsOf(w);
    assert ChanOk(w.info, key, w.channels[key]);
    OthersDistinct(w, c, members);
    forall m | m in members ensures Of(w.info, m).fd == Of(w.info, c).fd <==> m == c {
      assert Connected(w, m) && Connected(w, c);
      SameFd(w, m, c);
    }
  }

  /**
   * A member that has left the server is not reached: whoever its nick leads to is somebody else, or the lookup fails.
   */
  lemma DepartedMissed<Id>(w: World<Id>, c: Id, parts: seq<string>, m: Id)
    requires Inv(w) && |parts| >= 3 && parts[1] in w.channels && parts[1] != "" && parts[1][0] == '#'
    requires c in w.channels[parts[1]].members && m in w.channels[parts[1]].members
    requires !Connected(w, m) && !Skipped(w, c, m)
    ensures Targets(w, c, parts) != Some(OtherMembers(w, c, w.channels[parts[1]].members))
  {
    hide PollOk, NicksOk, LadderOk, ChannelsOk, Resolve;
    var members := w.channels[parts[1]].members;
    if Audience(w, c, members).Some? {
      AudienceHas(w, c, members, m);
      forall other | other in members ensures Resolve(w, Of(w.info, other).nick) != Some(m) {
        ResolvesConnected(w, Of(w.info, other).nick);
      }
      assert m in OtherMembers(w, c, members);
    }
  }

  lemma ResolvesConnected<Id>(w: World<Id>, nick: string)
    requires ClientsOk(w.info, w.clients)
    ensures Resolve(w, nick).Some? ==> Connected(w, Resolve(w, nick).value)
  {
  }

  lemma SameFd<Id>(w: World<Id>, a: Id, b: Id)
    requires Connected(w, a) && Connected(w, b)
    ensures Of(w.info, a).fd == Of(w.info, b).fd <==> a == b
  {
  }
}
