/** The member list of an `_irc_` channel is in the order of joining, so its front is the longest-standing member. */
module IrcStanding {
  import opened Lists
  import opened Text
  import opened Tokenizer
  import opened IrcText
  import opened IrcState
  import opened IrcSteps
  import opened IrcInvariant
  import opened IrcPart
  import opened IrcSuccession

  /** `x` stands before `y` in the list. */
  predicate Before<Id(==)>(s: seq<Id>, x: Id, y: Id) {
    exists i, j :: 0 <= i < j < |s| && s[i] == x && s[j] == y
  }

  /** The client is on the channel in every state from `j` to `k`. */
  ghost predicate Stands<Id>(ws: seq<World<Id>>, key: string, c: Id, j: nat, k: nat)
    requires k < |ws|
  {
    forall t :: j <= t <= k ==> IsMember(ws[t].channels, key, c)
  }

  /** In one step a member list stays, loses one entry, or gets one new entry at its end. */
  ghost predicate Moves<Id>(s: seq<Id>, s': seq<Id>, m: Id) {
    s' == s || s' == RemoveFirst(s, m) || (m !in s && s' == s + [m])
  }

  lemma RemoveKeepsOrder<Id>(s: seq<Id>, m: Id, i: nat, j: nat) returns (a: nat, b: nat)
    requires i < j < |RemoveFirst(s, m)|
    ensures a < b < |s| && s[a] == RemoveFirst(s, m)[i] && s[b] == RemoveFirst(s, m)[j]
  {
    hide RemoveFirst;
    if m in s {
      var at := RemoveFirstSplits(s, m);
      a, b := if i < at then i else i + 1, if j < at then j else j + 1;
    } else {
      a, b := i, j;
    }
  }

  /** Whoever precedes a client that was there before was there before, and preceded it. */
  lemma MovesKeepOrder<Id>(s: seq<Id>, s': seq<Id>, m: Id, x: Id, y: Id)
    requires Distinct(s') && Moves(s, s', m) && Before(s', x, y) && y in s
    ensures Before(s, x, y)
  {
    var i, j :| 0 <= i < j < |s'| && s'[i] == x && s'[j] == y;
    if s' == s {
    } else if s' == RemoveFirst(s, m) {
      var a, b := RemoveKeepsOrder(s, m, i, j);
    } else {
      assert s'[|s|] == m;
      assert j < |s| && s[i] == x && s[j] == y;
    }
  }

  lemma PartMoves<Id>(w: World<Id>, names: set<string>, c: Id, key: string)
    requires key in w.channels && key in Departed(w.info, w.channels, names, c)
    ensures Moves(w.channels[key].members, Departed(w.info, w.channels, names, c)[key].members, c)
  {
  }

  /** The client that a line moves on a channel. */
  ghost function Mover<Id>(w: World<Id>, c: Id, parts: seq<string>): Id {
    if Says(parts, "KICK") && |parts| >= 3 && ByNick(w.info, w.clients, parts[2]).Some?
    then ByNick(w.info, w.clients, parts[2]).value else c
  }

  lemma MoverIs<Id>(w: World<Id>, c: Id, parts: seq<string>)
    ensures !Says(parts, "KICK") ==> Mover(w, c, parts) == c
  {
  }

  lemma KickMoves<Id>(w: World<Id>, c: Id, parts: seq<string>, key: string)
    requires Inv(w) && Says(parts, "KICK") && KickStep(w, c, parts).Some? && key in w.channels
    requires key in KickStep(w, c, parts).value.channels
    ensures Moves(w.channels[key].members, KickStep(w, c, parts).value.channels[key].members, Mover(w, c, parts))
  {
    hide Inv, ByNick, LeaveAt, Departed, Moves;
    SelfMoves(w.channels[key].members, Mover(w, c, parts));
    if KickStep(w, c, parts).value != w {
      var target := ByNick(w.info, w.clients, parts[2]).value;
      ChannelsOf(w);
      LeaveIsDeparted(w.info, w.channels, parts[1], target);
      PartMoves(w, {parts[1]}, target, key);
    }
  }

  lemma SelfMoves<Id>(s: seq<Id>, m: Id)
    ensures Moves(s, s, m)
  {
  }

  lemma JoinMoves<Id>(w: World<Id>, c: Id, parts: seq<string>, key: string)
    requires key in w.channels && key in JoinStep(w, c, parts).channels
    ensures Moves(w.channels[key].members, JoinStep(w, c, parts).channels[key].members, c)
  {
    hide RemoveFirst;
  }

  lemma PartStepMoves<Id>(w: World<Id>, c: Id, parts: seq<string>, key: string)
    requires Inv(w) && key in w.channels && key in PartStep(w, c, parts).channels
    ensures Moves(w.channels[key].members, PartStep(w, c, parts).channels[key].members, c)
  {
    hide Inv, SplitAll, PartAll, Departed, Moves;
    SelfMoves(w.channels[key].members, c);
    if |parts| >= 2 {
      var names := SplitAll(parts[1], ",");
      ChannelsOf(w);
      PartAllIs(w.info, w.channels, names, c);
      PartMoves(w, Names(names), c, key);
    }
  }

  lemma LineMoves<Id>(w: World<Id>, fd: int, line: string, closes: bool, key: string) returns (m: Id)
    requires Inv(w) && LineStep(w, fd, line, closes).Some? && key in LineStep(w, fd, line, closes).value.channels
    ensures var w' := LineStep(w, fd, line, closes).value;
            if key in w.channels then Moves(w.channels[key].members, w'.channels[key].members, m)
            else w'.channels[key].members == [m]
  {
    m := Mover(w, w.clients[fd], CommandParts(line));
    hide Inv, CommandParts, LineStep, Moves, Mover;
    if key in w.channels {
      LineMovesOld(w, fd, line, closes, key);
    } else {
      m := LineFounds(w, fd, line, closes, key);
    }
  }

  lemma LineFounds<Id>(w: World<Id>, fd: int, line: string, closes: bool, key: string) returns (m: Id)
    requires Inv(w) && LineStep(w, fd, line, closes).Some? && key in LineStep(w, fd, line, closes).value.channels
    requires key !in w.channels
    ensures LineStep(w, fd, line, closes).value.channels[key].members == [m]
  {
    hide Inv, CommandParts, PassStep, NickStep, UserStep, JoinStep, PartStep, TopicStep, KickStep, Targets, Close;
    var c, parts := w.clients[fd], CommandParts(line);
    m := c;
    LadderMovesNone(w, c, parts);
    OnlyJoinFounds(w, c, parts, key);
  }

  lemma LineMovesOld<Id>(w: World<Id>, fd: int, line: string, closes: bool, key: string)
    requires Inv(w) && LineStep(w, fd, line, closes).Some? && key in LineStep(w, fd, line, closes).value.channels
    requires key in w.channels
    ensures Moves(w.channels[key].members, LineStep(w, fd, line, closes).value.channels[key].members,
                  Mover(w, w.clients[fd], CommandParts(line)))
  {
    hide Inv, CommandParts, PassStep, NickStep, UserStep, JoinStep, PartStep, TopicStep, KickStep, Targets, Close;
    hide Moves, ByNick, Mover;
    var c, parts := w.clients[fd], CommandParts(line);
    MoverIs(w, c, parts);
    LadderMovesNone(w, c, parts);
    SelfMoves(w.channels[key].members, Mover(w, c, parts));
    TopicMovesNone(w, c, parts, key);
    if key in JoinStep(w, c, parts).channels {
      JoinMoves(w, c, parts, key);
    }
    if key in PartStep(w, c, parts).channels {
      PartStepMoves(w, c, parts, key);
    }
    if Says(parts, "KICK") && KickStep(w, c, parts).Some? && key in KickStep(w, c, parts).value.channels {
      KickMoves(w, c, parts, key);
    }
  }

  lemma LadderMovesNone<Id>(w: World<Id>, c: Id, parts: seq<string>)
    ensures PassStep(w, c, parts).channels == w.channels && NickStep(w, c, parts).channels == w.channels
    ensures UserStep(w, c, parts).channels == w.channels && forall fd :: Close(w, fd).channels == w.channels
  {
    hide Join, NickTaken;
  }

  lemma TopicMovesNone<Id>(w: World<Id>, c: Id, parts: seq<string>, key: string)
    requires key in w.channels
    ensures key in TopicStep(w, c, parts).channels
    ensures TopicStep(w, c, parts).channels[key].members == w.channels[key].members
  {
    hide Join;
  }

  lemma OnlyJoinFounds<Id>(w: World<Id>, c: Id, parts: seq<string>, key: string)
    requires Inv(w) && key !in w.channels
    ensures key in JoinStep(w, c, parts).channels ==> JoinStep(w, c, parts).channels[key].members == [c]
    ensures key !in PartStep(w, c, parts).channels && key !in TopicStep(w, c, parts).channels
    ensures KickStep(w, c, parts).Some? ==> key !in KickStep(w, c, parts).value.channels
  {
    hide Inv, ByNick, Leave, PartAll, SplitAll, Join;
    ChannelsOf(w);
    if |parts| >= 2 {
      PartAddsNone(w.info, w.channels, SplitAll(parts[1], ","), c);
    }
  }

  lemma StepMoves<Id>(w: World<Id>, e: Event<Id>, w': World<Id>, key: string) returns (m: Id)
    requires Inv(w) && Step(w, e) == Some(w') && key in w'.channels
    ensures if key in w.channels then Moves(w.channels[key].members, w'.channels[key].members, m)
              else w'.channels[key].members == [m]
  {
    hide Inv, LineStep, Moves;
    if e.Line? {
      m := LineMoves(w, e.fd, e.line, e.closes, key);
    } else {
      ChannelsSame(w, e, w', key);
      m := w'.channels[key].members[0];
      SelfMoves(w.channels[key].members, m);
    }
  }

  lemma ChannelsSame<Id>(w: World<Id>, e: Event<Id>, w': World<Id>, key: string)
    requires Inv(w) && !e.Line? && Step(w, e) == Some(w') && key in w'.channels
    ensures w'.channels == w.channels && w.channels[key].members != []
  {
    assert ChanOk(w.info, key, w.channels[key]);
  }

  lemma StepOrder<Id>(w: World<Id>, e: Event<Id>, w': World<Id>, key: string, x: Id, y: Id)
    requires Inv(w) && Inv(w') && Step(w, e) == Some(w') && key in w'.channels
    requires Before(w'.channels[key].members, x, y) && IsMember(w.channels, key, y)
    ensures Before(w.channels[key].members, x, y)
  {
    hide Inv, Step, Moves, Before;
    var m := StepMoves(w, e, w', key);
    MembersDistinct(w', key);
    MovesKeepOrder(w.channels[key].members, w'.channels[key].members, m, x, y);
  }

  lemma MembersDistinct<Id>(w: World<Id>, key: string)
    requires Inv(w) && key in w.channels
    ensures Distinct(w.channels[key].members)
  {
    assert ChanOk(w.info, key, w.channels[key]);
  }

  /**
   * Whoever stands before a member has stood on the channel, and before it, for as long as that member has:
   * lists are in the order of joining, in every run whatever it does.
   */
  lemma {:induction false} ListIsInOrderOfJoining<Id>(ws: seq<World<Id>>, es: seq<Event<Id>>, j: nat, k: nat,
                                                      key: string, x: Id, y: Id)
    requires IsRun(ws, es) && j <= k < |ws| && key in ws[k].channels && Before(ws[k].channels[key].members, x, y)
    requires Stands(ws, key, y, j, k)
    ensures Stands(ws, key, x, j, k)
    ensures forall t :: j <= t <= k ==> key in ws[t].channels && Before(ws[t].channels[key].members, x, y)
    decreases k - j
  {
    hide Inv, Step, Enabled, Before, IsMember;
    BeforeIsOn(ws[k], key, x, y);
    if j < k {
      RunStep(ws, es, k - 1);
      assert IsMember(ws[k - 1].channels, key, y);
      StepOrder(ws[k - 1], es[k - 1], ws[k], key, x, y);
      OnIs(ws[k - 1], key, y);
      ListIsInOrderOfJoining(ws, es, j, k - 1, key, x, y);
    }
  }

  lemma OnIs<Id>(w: World<Id>, key: string, y: Id)
    requires IsMember(w.channels, key, y)
    ensures key in w.channels
  {
  }

  lemma BeforeIsOn<Id>(w: World<Id>, key: string, x: Id, y: Id)
    requires key in w.channels && Before(w.channels[key].members, x, y)
    ensures IsMember(w.channels, key, x)
  {
  }

  /**
   * Operator succession: as long as no front member renames himself, and whoever disconnects, the stored operator is
   * the nick of the front of the list, and every other member has been on the channel for at most as long as that one.
   */
  lemma OperatorStandsLongest<Id>(ws: seq<World<Id>>, es: seq<Event<Id>>, k: nat, key: string)
    requires IsRun(ws, es) && k < |ws| && key in ws[k].channels
    requires forall j :: 0 <= j < k ==> !FrontRenames(ws[j], es[j])
    ensures var w, ch := ws[k], ws[k].channels[key];
            && ch.members != [] && ch.op == Of(w.info, ch.members[0]).nick
            && forall i, j: nat :: 0 < i < |ch.members| && j <= k && Stands(ws, key, ch.members[i], j, k) ==>
                 Stands(ws, key, ch.members[0], j, k)
  {
    hide IsRun, FrontRenames, IsMember, Before, Stands;
    var ch := ws[k].channels[key];
    RunLedIff(ws, es, k);
    assert Led(ws[k].info, ch);
    forall i, j: nat | 0 < i < |ch.members| && j <= k && Stands(ws, key, ch.members[i], j, k)
      ensures Stands(ws, key, ch.members[0], j, k)
    {
      FrontIsBefore(ch.members, i);
      ListIsInOrderOfJoining(ws, es, j, k, key, ch.members[0], ch.members[i]);
    }
  }

  /** After calm events only, the stored operator is the nick of no other member. */
  lemma OperatorIsLongestStanding<Id>(ws: seq<World<Id>>, es: seq<Event<Id>>, k: nat, key: string)
    requires IsRun(ws, es) && k < |ws| && key in ws[k].channels && forall j :: 0 <= j < k ==> Calm(ws[j], es[j])
    ensures var w, ch := ws[k], ws[k].channels[key];
            && ch.members != [] && ch.op == Of(w.info, ch.members[0]).nick
            && (forall i :: 0 < i < |ch.members| ==> Of(w.info, ch.members[i]).nick != ch.op)
            && forall i, j: nat :: 0 < i < |ch.members| && j <= k && Stands(ws, key, ch.members[i], j, k) ==>
                 Stands(ws, key, ch.members[0], j, k)
  {
    assert |ws| == |es| + 1;
    hide IsRun, Inv, Calm, Stands, FrontRenames;
    forall j | 0 <= j < k ensures !FrontRenames(ws[j], es[j]) {
      CalmRenamesNone(ws[j], es[j]);
    }
    OperatorStandsLongest(ws, es, k, key);
    RunSuccession(ws, es, k);
    RunInv(ws, es, k);
    MembersApart(ws[k], key);
  }

  lemma FrontIsBefore<Id>(s: seq<Id>, i: nat)
    requires 0 < i < |s|
    ensures Before(s, s[0], s[i])
  {
  }
}
