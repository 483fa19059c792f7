/** Who may change what on an `_irc_` channel. */
module IrcRights {
  import opened Lists
  import opened Text
  import opened Tokenizer
  import opened IrcText
  import opened IrcState
  import opened IrcSteps
  import opened IrcInvariant
  import opened IrcPart
  import opened IrcStanding
  import opened IrcSuccession

  /** Name, key and topic of a channel, while it exists on both sides. */
  ghost predicate SameLabels<Id>(channels: map<string, Chan<Id>>, channels': map<string, Chan<Id>>, key: string) {
    key in channels && key in channels' ==>
      && channels'[key].name == channels[key].name && channels'[key].key == channels[key].key
      && channels'[key].topic == channels[key].topic
  }

  /** Only the one who leaves disappears, and labels stay. */
  lemma DepartedOthers<Id>(info: map<Id, ClientInfo>, channels: map<string, Chan<Id>>, names: set<string>, c: Id,
                           key: string, m: Id)
    ensures IsMember(channels, key, m) && !(m == c && key in names) ==>
              IsMember(Departed(info, channels, names, c), key, m)
    ensures IsMember(Departed(info, channels, names, c), key, m) ==> IsMember(channels, key, m)
    ensures SameLabels(channels, Departed(info, channels, names, c), key)
  {
  }

  /** The name is one of those between the commas of the second word. */
  predicate OnList(parts: seq<string>, name: string) {
    |parts| >= 2 && name in SplitAll(parts[1], ",")
  }

  /** The second and the third word name a channel and the client that has the nick. */
  ghost predicate Expels<Id>(w: World<Id>, parts: seq<string>, key: string, m: Id) {
    |parts| >= 3 && parts[1] == key && ByNick(w.info, w.clients, parts[2]) == Some(m)
  }

  lemma PartRights<Id>(w: World<Id>, c: Id, parts: seq<string>, key: string, m: Id)
    requires Inv(w)
    ensures var after := PartStep(w, c, parts).channels;
            && (IsMember(w.channels, key, m) && !IsMember(after, key, m) ==> m == c && OnList(parts, key))
            && (IsMember(after, key, m) ==> IsMember(w.channels, key, m)) && SameLabels(w.channels, after, key)
  {
    hide Inv, PartAll, Departed, SplitAll, IsMember;
    if |parts| >= 2 {
      var names := SplitAll(parts[1], ",");
      ChannelsOf(w);
      PartAllIs(w.info, w.channels, names, c);
      DepartedOthers(w.info, w.channels, Names(names), c, key, m);
    }
  }

  lemma KickRights<Id>(w: World<Id>, c: Id, parts: seq<string>, key: string, m: Id)
    requires Inv(w) && KickStep(w, c, parts).Some?
    ensures var after := KickStep(w, c, parts).value.channels;
            && (IsMember(w.channels, key, m) && !IsMember(after, key, m) ==>
                  key in w.channels && Of(w.info, c).nick == w.channels[key].op && Expels(w, parts, key, m))
            && (IsMember(after, key, m) ==> IsMember(w.channels, key, m)) && SameLabels(w.channels, after, key)
  {
    hide Inv, ByNick, Leave, LeaveAt, Departed;
    if KickStep(w, c, parts).value != w {
      var target := ByNick(w.info, w.clients, parts[2]).value;
      ChannelsOf(w);
      LeaveIsDeparted(w.info, w.channels, parts[1], target);
      DepartedOthers(w.info, w.channels, {parts[1]}, target, key, m);
      if key != parts[1] && key in w.channels {
        LeaveElsewhere(w.info, w.channels, parts[1], target, key);
      }
    }
  }

  /** Leaving one channel leaves the others alone. */
  lemma LeaveElsewhere<Id>(info: map<Id, ClientInfo>, channels: map<string, Chan<Id>>, name: string, c: Id, key: string)
    requires ChannelsOk(info, channels) && key != name && key in channels
    ensures key in LeaveAt(info, channels, name, c) && LeaveAt(info, channels, name, c)[key] == channels[key]
  {
    hide Leave;
  }

  /** The second word names a channel, and the others are the topic. */
  predicate Titles(parts: seq<string>, key: string, topic: string) {
    |parts| >= 3 && parts[1] == key && topic == Join(parts[2..], " ")
  }

  lemma TopicRights<Id>(w: World<Id>, c: Id, parts: seq<string>, key: string, m: Id)
    ensures var after := TopicStep(w, c, parts).channels;
            && (IsMember(after, key, m) <==> IsMember(w.channels, key, m))
            && (!SameLabels(w.channels, after, key) ==>
                  && Of(w.info, c).nick == w.channels[key].op && Titles(parts, key, after[key].topic)
                  && after[key].key == w.channels[key].key && after[key].name == w.channels[key].name)
  {
    hide Join;
  }

  lemma JoinRights<Id>(w: World<Id>, c: Id, parts: seq<string>, key: string, m: Id)
    ensures var after := JoinStep(w, c, parts).channels;
            && (IsMember(w.channels, key, m) ==> IsMember(after, key, m)) && SameLabels(w.channels, after, key)
            && (IsMember(after, key, m) && !IsMember(w.channels, key, m) ==>
                  && m == c && |parts| >= 2 && parts[1] == key
                  && (key in w.channels ==> |w.channels[key].members| < USER_LIMIT
                                            && w.channels[key].key == if |parts| >= 3 then parts[2] else ""))
  {
  }

  /** What a line can do to a membership and to the labels of a channel, who sends it, and with which command. */
  lemma LineRights<Id>(w: World<Id>, fd: int, line: string, closes: bool, key: string, m: Id)
    requires Inv(w) && LineStep(w, fd, line, closes).Some?
    ensures fd in w.clients
    ensures var c, parts, after := w.clients[fd], CommandParts(line), LineStep(w, fd, line, closes).value.channels;
            && (IsMember(w.channels, key, m) && !IsMember(after, key, m) ==> Removes(w, c, parts, key, m))
            && (IsMember(after, key, m) && !IsMember(w.channels, key, m) ==> m == c && Enters(w, parts, key))
            && (!SameLabels(w.channels, after, key) ==>
                  && Of(w.info, c).nick == w.channels[key].op && Says(parts, "TOPIC")
                  && Titles(parts, key, after[key].topic)
                  && after[key].key == w.channels[key].key && after[key].name == w.channels[key].name)
  {
    hide Inv, CommandParts, PassStep, NickStep, UserStep, JoinStep, PartStep, TopicStep, KickStep, Targets, Close;
    hide SameLabels, IsMember, Says, Titles, OnList, Expels;
    var c, parts := w.clients[fd], CommandParts(line);
    LadderMovesNone(w, c, parts);
    LabelsStay(w.channels, key);
    JoinRights(w, c, parts, key, m);
    PartRights(w, c, parts, key, m);
    TopicRights(w, c, parts, key, m);
    if KickStep(w, c, parts).Some? {
      KickRights(w, c, parts, key, m);
    }
  }

  /** The member's own PART that lists the channel, or a KICK of the channel's operator that names it. */
  ghost predicate Removes<Id>(w: World<Id>, c: Id, parts: seq<string>, key: string, m: Id) {
    || (m == c && Says(parts, "PART") && OnList(parts, key))
    || (Says(parts, "KICK") && Expels(w, parts, key, m)
        && key in w.channels && Of(w.info, c).nick == w.channels[key].op)
  }

  /** A JOIN of the channel with its key, while it is below the limit. */
  predicate Enters<Id(==)>(w: World<Id>, parts: seq<string>, key: string) {
    && Says(parts, "JOIN") && |parts| >= 2 && parts[1] == key
    && (key in w.channels ==> |w.channels[key].members| < 10 && KeyGiven(parts, w.channels[key].key))
  }

  predicate KeyGiven(parts: seq<string>, key: string) {
    key == if |parts| >= 3 then parts[2] else ""
  }

  lemma LabelsStay<Id>(channels: map<string, Chan<Id>>, key: string)
    ensures SameLabels(channels, channels, key)
  {
  }

  lemma OtherEvents<Id>(w: World<Id>, e: Event<Id>, w': World<Id>)
    requires Step(w, e) == Some(w') && !e.Line?
    ensures w'.channels == w.channels
  {
  }

  lemma StepRights<Id>(w: World<Id>, e: Event<Id>, w': World<Id>, key: string, m: Id)
    requires Inv(w) && Step(w, e) == Some(w')
    ensures Permitted(w, e, w', key, m)
  {
    hide Inv, LineStep, IsMember, CommandParts, Removes, Enters, Titles, Says;
    if e.Line? {
      LineRights(w, e.fd, e.line, e.closes, key, m);
    } else {
      OtherEvents(w, e, w');
    }
  }

  /** What an event may change of a channel's members and labels. */
  ghost predicate Permitted<Id>(w: World<Id>, e: Event<Id>, w': World<Id>, key: string, m: Id) {
    && (IsMember(w.channels, key, m) && !IsMember(w'.channels, key, m) ==>
          e.Line? && e.fd in w.clients && Removes(w, w.clients[e.fd], CommandParts(e.line), key, m))
    && (IsMember(w'.channels, key, m) && !IsMember(w.channels, key, m) ==>
          e.Line? && e.fd in w.clients && w.clients[e.fd] == m && Enters(w, CommandParts(e.line), key))
    && (key in w.channels && key in w'.channels ==>
          && w'.channels[key].name == w.channels[key].name && w'.channels[key].key == w.channels[key].key
          && (w'.channels[key].topic != w.channels[key].topic ==>
                && e.Line? && e.fd in w.clients && Of(w.info, w.clients[e.fd]).nick == w.channels[key].op
                && Says(CommandParts(e.line), "TOPIC")
                && Titles(CommandParts(e.line), key, w'.channels[key].topic)))
  }

  lemma JoinFounds<Id>(w: World<Id>, c: Id, parts: seq<string>, key: string)
    requires key !in w.channels && key in JoinStep(w, c, parts).channels
    ensures |key| >= 2 && key[0] == '#' && |parts| >= 2 && parts[1] == key
    ensures exists pass :: KeyGiven(parts, pass)
              && JoinStep(w, c, parts).channels[key] == Chan(key, pass, "", Of(w.info, c).nick, [c])
  {
    assert KeyGiven(parts, JoinStep(w, c, parts).channels[key].key);
  }

  lemma StepFounding<Id>(w: World<Id>, e: Event<Id>, w': World<Id>, key: string)
    requires Inv(w) && Step(w, e) == Some(w') && key !in w.channels && key in w'.channels
    ensures e.Line? && e.fd in w.clients && |key| >= 2 && key[0] == '#'
    ensures var c, parts := w.clients[e.fd], CommandParts(e.line);
            && Says(parts, "JOIN") && |parts| >= 2 && parts[1] == key
            && exists pass :: KeyGiven(parts, pass) && w'.channels[key] == Chan(key, pass, "", Of(w.info, c).nick, [c])
  {
    hide Inv, CommandParts, PassStep, NickStep, UserStep, JoinStep, PartStep, TopicStep, KickStep, Targets, Close, Says;
    hide KeyGiven;
    if e.Line? {
      var c, parts := w.clients[e.fd], CommandParts(e.line);
      LadderMovesNone(w, c, parts);
      OnlyJoinFounds(w, c, parts, key);
      if key in JoinStep(w, c, parts).channels {
        JoinFounds(w, c, parts, key);
      }
    } else {
      OtherEvents(w, e, w');
    }
  }

  /**
   * In every run, a member goes only by its own PART that lists the channel or by a KICK of the operator that names
   * it; a client enters only by its own JOIN of the channel, with the right key and below the limit if it exists; a
   * topic changes only by a TOPIC of the operator, to the words of the line from the third on.
   */
  lemma Rights<Id>(ws: seq<World<Id>>, es: seq<Event<Id>>, j: nat, key: string, m: Id)
    requires IsRun(ws, es) && j < |es|
    ensures Permitted(ws[j], es[j], ws[j + 1], key, m)
  {
    hide Inv, Step, Enabled, Init, Permitted;
    RunStep(ws, es, j);
    StepRights(ws[j], es[j], ws[j + 1], key, m);
  }

  /**
   * In every run, a new channel is the sender's: named after the second word, keyed by the third, led by the founder
   * alone.
   */
  lemma Founding<Id>(ws: seq<World<Id>>, es: seq<Event<Id>>, j: nat, key: string)
    requires IsRun(ws, es) && j < |es| && key !in ws[j].channels && key in ws[j + 1].channels
    ensures es[j].Line? && es[j].fd in ws[j].clients && |key| >= 2 && key[0] == '#'
    ensures var c, parts := ws[j].clients[es[j].fd], CommandParts(es[j].line);
            && Says(parts, "JOIN") && |parts| >= 2 && parts[1] == key
            && exists pass :: KeyGiven(parts, pass)
                 && ws[j + 1].channels[key] == Chan(key, pass, "", Of(ws[j].info, c).nick, [c])
  {
    hide Inv, Step, Enabled, Init, CommandParts, KeyGiven;
    RunStep(ws, es, j);
    StepFounding(ws[j], es[j], ws[j + 1], key);
  }

  /**
   * In every run, a topic that a line without NUL and line feed sets is the exact tail of the line after its second
   * space.
   */
  lemma TopicIsTail<Id>(ws: seq<World<Id>>, es: seq<Event<Id>>, j: nat, key: string) returns (lo: nat)
    requires IsRun(ws, es) && j < |es| && es[j].Line? && '\0' !in es[j].line && '\n' !in es[j].line
    requires key in ws[j].channels && key in ws[j + 1].channels
    requires ws[j + 1].channels[key].topic != ws[j].channels[key].topic
    ensures FollowsSpace(es[j].line, 2, lo) && ws[j + 1].channels[key].topic == es[j].line[lo..]
  {
    hide Inv, LineStep, Enabled, Init, Spaces;
    RunStep(ws, es, j);
    lo := StepTopic(ws[j], es[j].fd, es[j].line, es[j].closes, key);
  }

  lemma StepTopic<Id>(w: World<Id>, fd: int, line: string, closes: bool, key: string) returns (lo: nat)
    requires Inv(w) && LineStep(w, fd, line, closes).Some? && '\0' !in line && '\n' !in line
    requires key in w.channels && key in LineStep(w, fd, line, closes).value.channels
    requires LineStep(w, fd, line, closes).value.channels[key].topic != w.channels[key].topic
    ensures FollowsSpace(line, 2, lo) && LineStep(w, fd, line, closes).value.channels[key].topic == line[lo..]
  {
    hide Inv, CommandParts, PassStep, NickStep, UserStep, JoinStep, PartStep, TopicStep, KickStep, Targets, Close, Says;
    hide Spaces;
    var c, parts := w.clients[fd], CommandParts(line);
    LabelsKept(w, c, parts, key);
    TopicSet(w, c, parts, key);
    lo := JoinersGiveTail(line, 2);
  }

  lemma TopicSet<Id>(w: World<Id>, c: Id, parts: seq<string>, key: string)
    requires key in w.channels
    ensures key in TopicStep(w, c, parts).channels
    ensures TopicStep(w, c, parts).channels[key].topic != w.channels[key].topic ==>
              |parts| > 2 && TopicStep(w, c, parts).channels[key].topic == Join(parts[2..], " ")
  {
    hide Join;
  }

  lemma LabelsKept<Id>(w: World<Id>, c: Id, parts: seq<string>, key: string)
    requires Inv(w)
    ensures PassStep(w, c, parts).channels == w.channels && NickStep(w, c, parts).channels == w.channels
    ensures UserStep(w, c, parts).channels == w.channels && forall fd :: Close(w, fd).channels == w.channels
    ensures SameLabels(w.channels, JoinStep(w, c, parts).channels, key)
    ensures SameLabels(w.channels, PartStep(w, c, parts).channels, key)
    ensures KickStep(w, c, parts).Some? ==> SameLabels(w.channels, KickStep(w, c, parts).value.channels, key)
  {
    hide Inv, JoinStep, PartStep, KickStep, Close, PassStep, NickStep, UserStep, SameLabels, IsMember;
    LadderMovesNone(w, c, parts);
    LabelsStay(w.channels, key);
    JoinRights(w, c, parts, key, c);
    PartRights(w, c, parts, key, c);
    if KickStep(w, c, parts).Some? {
      KickRights(w, c, parts, key, c);
    }
  }

  /** While the succession holds, a connected client that the operator field names is the front member. */
  lemma OperatorIsFront<Id>(w: World<Id>, fd: int, key: string)
    requires Inv(w) && Succession(w) && key in w.channels && fd in w.clients
    requires Of(w.info, w.clients[fd]).hasNick && Of(w.info, w.clients[fd]).nick == w.channels[key].op
    ensures w.clients[fd] == w.channels[key].members[0]
  {
    hide NicksOk, PollOk;
    var ch := w.channels[key];
    assert Led(w.info, ch) && ChanOk(w.info, key, ch);
    var front := ch.members[0];
    assert front in ch.members && Connected(w, front);
    if w.info[front].fd != fd {
      LiveNicksUnique(w, w.info[front].fd, fd);
    }
  }
}
