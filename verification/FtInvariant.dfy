/** What every reachable state of the 42-Ft_irc server satisfies. */
module FtInvariant {
  import opened Lists
  import opened Text
  import opened Tokenizer
  import opened FtParser
  import opened FtState
  import opened FtChannel
  import opened FtSteps
  import opened FtEffects

  /** A channel name: no space, no line end, no white space around it. */
  ghost predicate NameOk(name: string) {
    ' ' !in name && !Contains(name, CRLF) && Trimmed(name)
  }

  ghost predicate NamesOk<Id>(channels: seq<Chan<Id>>) {
    && (forall i, j :: 0 <= i < j < |channels| ==> channels[i].name != channels[j].name)
    && forall i :: 0 <= i < |channels| ==> NameOk(channels[i].name)
  }

  ghost predicate ChannelsOk<Id>(info: map<Id, ClientInfo>, channels: seq<Chan<Id>>) {
    forall i :: 0 <= i < |channels| ==> ChanOk(info, channels[i])
  }

  /** Live clients are known, have their own descriptors, and share a nick only while it is "*". */
  ghost predicate LiveOk<Id>(info: map<Id, ClientInfo>, live: seq<Id>) {
    && Distinct(live)
    && (forall c <- live :: c in info)
    && (forall c <- live, d <- live :: c != d ==> Of(info, c).fd != Of(info, d).fd)
    && (forall c <- live, d <- live :: c != d && Of(info, c).nick == Of(info, d).nick ==> Of(info, c).nick == "*")
  }

  ghost predicate Inv<Id>(w: World<Id>) {
    LiveOk(w.info, w.live) && NamesOk(w.channels) && ChannelsOk(w.info, w.channels)
  }

  // ---------------------------------------------------------------- names come out of the parser clean

  /** In a handled line a CRLF can only stand at the very end. */
  lemma SingleLineEnd(line: string, i: int)
    requires SingleLine(line)
    ensures OccursAt(CRLF, line, i) ==> i + 2 == |line|
  {
    hide SplitAll, CutAt, Find, OccursAt;
    var all := SplitAll(line, CRLF);
    JoinOfSplit(line, CRLF);
    SplitFree(line, CRLF);
    var p := all[0];
    assert p in all && !Contains(p, CRLF);
    if all == [p] {
      JoinOne(p);
    } else {
      assert all == [p, ""];
      JoinTwo(p);
      OnlyCrlfLast(p, i);
    }
  }

  lemma OnlyCrlfLast(p: string, i: int)
    requires !Contains(p, CRLF)
    ensures OccursAt(CRLF, p + CRLF, i) ==> i == |p|
  {
    DelimitersInUse();
    if 0 <= i < |p| {
      NoEarlierDelimiter(p, CRLF, "", i);
      assert p + CRLF + "" == p + CRLF;
    }
  }

  lemma JoinOne(p: string)
    ensures Join([p], CRLF) == p
  {
  }

  lemma JoinTwo(p: string)
    ensures Join([p, ""], CRLF) == p + CRLF
  {
    assert [p, ""][1..] == [""];
  }

  /** A piece of a split is a slice of the text. */
  lemma {:induction false} PieceIsSlice(s: string, d: string, k: nat) returns (lo: nat, hi: nat)
    requires d != "" && k < |SplitAll(s, d)|
    ensures lo <= hi <= |s| && SplitAll(s, d)[k] == s[lo..hi]
    decreases |s|
  {
    hide CutAt, Find, OccursAt;
    match CutAt(s, d)
    case Whole =>
      lo, hi := 0, |s|;
    case Parts(head, tail) =>
      if k == 0 {
        lo, hi := 0, |head|;
      } else {
        var l, h := PieceIsSlice(tail, d, k - 1);
        lo, hi := |head + d| + l, |head + d| + h;
        SliceOfTail(head + d, tail, l, h);
      }
  }

  lemma SliceOfTail(front: string, tail: string, lo: nat, hi: nat)
    requires lo <= hi <= |tail|
    ensures (front + tail)[|front| + lo..|front| + hi] == tail[lo..hi]
  {
  }

  /** A trimmed slice of a handled line contains no line end. */
  lemma SliceHasNoCrlf(line: string, lo: nat, hi: nat)
    requires SingleLine(line) && lo <= hi <= |line| && Trimmed(line[lo..hi])
    ensures !Contains(line[lo..hi], CRLF)
  {
    hide SingleLine;
    var t := line[lo..hi];
    forall i ensures !OccursAt(CRLF, t, i) {
      if 0 <= i && i + 2 <= |t| {
        SliceOfSlice(line, lo, hi, i, i + 2);
        SingleLineEnd(line, lo + i);
        assert t[i..i + 2][1] == t[i + 1];
      }
    }
  }

  /** The first argument of a handled line is a possible channel name. */
  lemma FunctionIsName(line: string)
    requires SingleLine(line)
    ensures NameOk(ParsedInfo(line).function_)
  {
    hide SingleLine, SplitAll, Join, Trim;
    var words := Words(line);
    if ' ' in line && |words| > 1 {
      var lo, hi := PieceIsSlice(line, " ", 1);
      var a, b := TrimSplits(words[1]);
      SliceOfSlice(line, lo, hi, a, b);
      SliceHasNoCrlf(line, lo + a, lo + b);
      SplitFree(line, " ");
      assert words[1] in words;
      ContainsChar(words[1], ' ');
    } else {
      EmptyIsName();
    }
  }

  lemma EmptyIsName()
    ensures NameOk("")
  {
  }

  // ---------------------------------------------------------------- each effect keeps the invariant

  /** A record may change without touching hosts, descriptors and logins of the others. */
  ghost predicate Extends<Id>(info: map<Id, ClientInfo>, info': map<Id, ClientInfo>) {
    forall c :: c in info ==>
      c in info' && info'[c].host == info[c].host && info'[c].fd == info[c].fd && (info[c].login ==> info'[c].login)
  }

  lemma ChanOkExtends<Id>(info: map<Id, ClientInfo>, info': map<Id, ClientInfo>, ch: Chan<Id>)
    requires ChanOk(info, ch) && Extends(info, info')
    ensures ChanOk(info', ch)
  {
    forall i, j | 0 <= i < j < |ch.bans| ensures Of(info', ch.bans[i]).host != Of(info', ch.bans[j]).host {
      assert ch.bans[i] in ch.bans && ch.bans[j] in ch.bans;
    }
  }

  lemma ChannelsOkExtends<Id>(info: map<Id, ClientInfo>, info': map<Id, ClientInfo>, channels: seq<Chan<Id>>)
    requires ChannelsOk(info, channels) && Extends(info, info')
    ensures ChannelsOk(info', channels)
  {
    hide ChanOk, Extends;
    forall i | 0 <= i < |channels| ensures ChanOk(info', channels[i]) {
      ChanOkExtends(info, info', channels[i]);
    }
  }

  lemma ProfileExtends<Id>(w: World<Id>, c: Id, i: ClientInfo)
    requires ProfileOk(w, c, i)
    ensures Extends(w.info, w.info[c := i])
  {
  }

  lemma ProfileLive<Id>(w: World<Id>, c: Id, i: ClientInfo)
    requires ProfileOk(w, c, i) && LiveOk(w.info, w.live)
    ensures LiveOk(w.info[c := i], w.live)
  {
    hide Distinct, ByNick;
  }

  lemma EditOk<Id>(w: World<Id>, ch: Chan<Id>, fd: int, line: string, e: Edit<Id>)
    requires ChanOk(w.info, ch) && Allowed(w, ch, fd, line, e)
    requires forall c <- w.live :: c in w.info
    ensures ChanOk(w.info, Apply(w.info, ch, e)) && Apply(w.info, ch, e).name == ch.name
  {
    hide IsMode, IsEither, Titles, PartsFrom, Kicks, NamedBy, BanHostOf, UnbanHostOf, LimitOfLine, Rules, CommandOf;
    hide ParsedInfo, ByFd, ByHost, ByNick;
    match e
    case Enter(c) => AdmitOk(w.info, ch, c);
    case Exit(c) => DropOk(w.info, ch, c);
    case Grant(c) => DistinctSnoc(ch.operators, c);
    case Revoke(c) => RevokeOk(w.info, ch, c);
    case BanHost(c) => BanOk(w.info, ch, c);
    case UnbanHost(c) => RemoveFirstHosts(w.info, ch.bans, c);
    case Invited(c) => DistinctSnoc(ch.invites, c);
    case Limit(_) =>
    case InviteFlag(_) =>
    case Key(_) =>
    case Topic(_) =>
  }

  lemma RevokeOk<Id>(info: map<Id, ClientInfo>, ch: Chan<Id>, c: Id)
    requires ChanOk(info, ch)
    ensures ChanOk(info, ch.(operators := RemoveFirst(ch.operators, c)))
  {
    RemoveFirstDistinct(ch.operators, c);
  }

  lemma EditedInv<Id>(w: World<Id>, fd: int, line: string, i: nat, e: Edit<Id>)
    requires Inv(w) && i < |w.channels| && Allowed(w, w.channels[i], fd, line, e)
    ensures Inv(With(w, i, Apply(w.info, w.channels[i], e)))
  {
    hide Allowed, Apply, ChanOk, NameOk;
    EditOk(w, w.channels[i], fd, line, e);
  }

  lemma FoundedInv<Id>(w: World<Id>, c: Id, name: string)
    requires Inv(w) && c in w.live && Of(w.info, c).login && ByName(w.channels, name).None? && NameOk(name)
    ensures Inv(w.(channels := w.channels + [NewChan(name).(clients := [c], operators := [c])]))
  {
    hide NameOk;
    assert ChanOk(w.info, NewChan(name).(clients := [c], operators := [c]));
    hide ChanOk;
  }

  lemma TwoLeaveOk<Id>(info: map<Id, ClientInfo>, ch: Chan<Id>, a: Option<Id>, b: Option<Id>)
    requires ChanOk(info, ch)
    ensures ChanOk(info, TwoLeave(info, ch, a, b)) && TwoLeave(info, ch, a, b).name == ch.name
  {
    hide ChanOk;
    if a.Some? {
      DropOk(info, ch, a.value);
    }
    if b.Some? {
      DropOk(info, DropOption(info, ch, a), b.value);
    }
  }

  lemma DropFdLive<Id>(info: map<Id, ClientInfo>, live: seq<Id>, fd: int)
    requires LiveOk(info, live)
    ensures LiveOk(info, DropFd(info, live, fd))
    ensures forall c <- DropFd(info, live, fd) :: c in live && Of(info, c).fd != fd
  {
    match ByFd(info, live, fd)
    case None =>
    case Some(c) => RemoveFirstDistinct(live, c);
  }

  lemma RecordsExtend<Id>(w: World<Id>, info: map<Id, ClientInfo>, fd: int)
    requires RecordsOk(w, info, fd) && LiveOk(w.info, w.live)
    ensures Extends(w.info, info) && LiveOk(info, w.live)
  {
    hide ProfileOk, LiveOk;
    if info != w.info {
      var c := ByFd(w.info, w.live, fd).value;
      ProfileExtends(w, c, Of(info, c));
      ProfileLive(w, c, Of(info, c));
    }
  }

  lemma GoneInv<Id>(w: World<Id>, w': World<Id>, fd: int, first: seq<Option<Id>>, second: seq<Option<Id>>)
    requires Inv(w) && GoneTo(w, w', fd, first, second)
    ensures Inv(w')
  {
    hide LiveOk, DropFd, TwoLeave, ChanOk, NameOk, RecordsOk, Extends;
    RecordsExtend(w, w'.info, fd);
    DropFdLive(w'.info, w.live, fd);
    DropFdLive(w'.info, DropFd(w'.info, w.live, fd), fd);
    ChannelsOkExtends(w.info, w'.info, w.channels);
    forall i | 0 <= i < |w.channels|
      ensures ChanOk(w'.info, w'.channels[i]) && w'.channels[i].name == w.channels[i].name
    {
      TwoLeaveOk(w'.info, w.channels[i], first[i], second[i]);
    }
  }

  lemma ConnectInv<Id>(w: World<Id>, c: Id, fd: int, host: string)
    requires Inv(w) && c !in w.info && ByFd(w.info, w.live, fd).None?
    ensures Inv(w.(info := w.info[c := Newcomer(fd, host)], live := w.live + [c]))
  {
    hide ChanOk, NameOk;
    ChannelsOkExtends(w.info, w.info[c := Newcomer(fd, host)], w.channels);
    assert c !in w.live;
  }

  lemma ProfileInv<Id>(w: World<Id>, c: Id, i: ClientInfo)
    requires Inv(w) && ProfileOk(w, c, i)
    ensures Inv(SetInfo(w, c, i))
  {
    hide LiveOk, ChannelsOk, ProfileOk, NamesOk, Extends;
    ProfileExtends(w, c, i);
    ProfileLive(w, c, i);
    ChannelsOkExtends(w.info, w.info[c := i], w.channels);
  }

  lemma EffectInv<Id>(w: World<Id>, w': World<Id>, fd: int, line: string, effect: Effect<Id>)
    requires Inv(w) && SingleLine(line) && Explains(w, w', fd, line, effect)
    ensures Inv(w')
  {
    hide Inv, Allowed, Apply, GoneTo, ProfileOk, CommandOf, ParsedInfo, SingleLine, NameOk, ByFd, ByName, Of, With;
    hide SetInfo, NewChan;
    match effect
    case Quiet =>
    case Profile(c, i) => ProfileInv(w, c, i);
    case Founded(c, name) =>
      FunctionIsName(line);
      FoundedInv(w, c, name);
    case Edited(i, e) => EditedInv(w, fd, line, i, e);
    case Gone(_, first, second) => GoneInv(w, w', fd, first, second);
  }

  /** A line keeps the invariant. */
  lemma LineInv<Id>(w: World<Id>, line: string, fd: int)
    requires Inv(w) && SingleLine(line) && LineStep(w, line, fd).Some?
    ensures Inv(LineStep(w, line, fd).value)
  {
    var known := LiveKnown(w);
    hide LineStep, Inv, Explains, SingleLine;
    var effect := LineExplained(w, line, fd);
    EffectInv(w, LineStep(w, line, fd).value, fd, line, effect);
  }

  lemma LiveKnown<Id>(w: World<Id>) returns (known: bool)
    requires Inv(w)
    ensures known && forall c <- w.live :: c in w.info
  {
    known := true;
  }

  /** Every event keeps the invariant. */
  lemma StepInv<Id>(w: World<Id>, e: Event<Id>)
    requires Inv(w) && Enabled(w, e) && Step(w, e).Some?
    ensures Inv(Step(w, e).value)
  {
    hide Inv, LineStep, ServerRemove, SingleLine;
    match e
    case Connect(c, fd, host) => ConnectInv(w, c, fd, host);
    case Line(fd, line) => LineInv(w, line, fd);
    case Hangup(fd) =>
      var first, second := RemovalIsGone(w, w, fd);
      GoneInv(w, ServerRemove(w, fd), fd, first, second);
  }

  lemma InitInv<Id>(password: string, unset: Int32)
    ensures Inv(Init<Id>(password, unset))
  {
  }

  /** Hence every state of every run satisfies it. */
  lemma {:induction false} RunInv<Id>(ws: seq<World<Id>>, es: seq<Event<Id>>, k: nat)
    requires IsRun(ws, es) && k < |ws|
    ensures Inv(ws[k])
  {
    hide Inv, Step, Enabled, Init;
    if k == 0 {
      InitInv<Id>(ws[0].password, ws[0].unset);
    } else {
      var j := k - 1;
      RunInv(ws, es, j);
      assert Enabled(ws[j], es[j]) && Step(ws[j], es[j]) == Some(ws[j + 1]);
      StepInv(ws[j], es[j]);
    }
  }

  // ---------------------------------------------------------------- the lines of a text

  lemma {:induction false} UntilEmptyIs(words: seq<string>)
    ensures var n := |UntilEmpty(words)|;
            && n <= |words| && UntilEmpty(words) == words[..n]
            && (forall i :: 0 <= i < n ==> words[i] != "") && (n == |words| || words[n] == "")
  {
    if words != [] && words[0] != "" {
      UntilEmptyIs(words[1..]);
      var n := |UntilEmpty(words)|;
      assert words[..n] == [words[0]] + words[1..][..n - 1];
      assert forall i :: 0 < i <= |words[1..]| ==> words[i] == words[1..][i - 1];
    }
  }

  /**
   * A text is handled as itself if it is a single line, and otherwise as its CRLF pieces before the first empty one.
   */
  lemma LinesAre(message: string)
    ensures SingleLine(message) ==> LinesOf(message) == [message]
    ensures !SingleLine(message) ==>
              var pieces, n := Split(message, CRLF), |LinesOf(message)|;
              && n <= |pieces| && LinesOf(message) == pieces[..n]
              && (forall i :: 0 <= i < n ==> pieces[i] != "") && (n == |pieces| || pieces[n] == "")
    ensures forall line <- LinesOf(message) :: SingleLine(line)
  {
    hide Split, UntilEmpty, Contains;
    UntilEmptyIs(Split(message, CRLF));
    if !SingleLine(message) {
      SplitFree(message, CRLF);
      forall line | line in LinesOf(message) ensures SingleLine(line) {
        assert line in Split(message, CRLF) && line != "";
        SplitWhole(line, CRLF);
      }
    }
  }

  // ---------------------------------------------------------------- a text is a run of events

  function LineEvents<Id>(fd: int, lines: seq<string>): (es: seq<Event<Id>>)
    ensures |es| == |lines| && forall i :: 0 <= i < |lines| ==> es[i] == Line(fd, lines[i])
  {
    seq(|lines|, i requires 0 <= i < |lines| => Line(fd, lines[i]))
  }

  lemma RunOn<Id>(ws: seq<World<Id>>, es: seq<Event<Id>>, e: Event<Id>, w': World<Id>)
    requires IsRun(ws, es) && Enabled(ws[|es|], e) && Step(ws[|es|], e) == Some(w')
    ensures IsRun(ws + [w'], es + [e])
  {
    hide Enabled, Step, Init;
  }

  lemma LineEventsCons<Id>(es: seq<Event<Id>>, fd: int, lines: seq<string>)
    requires lines != []
    ensures es + [Line(fd, lines[0])] + LineEvents(fd, lines[1..]) == es + LineEvents(fd, lines)
  {
  }

  lemma {:induction false} LinesGoOn<Id>(ws: seq<World<Id>>, es: seq<Event<Id>>, lines: seq<string>, fd: int)
    returns (ws': seq<World<Id>>)
    requires IsRun(ws, es) && RunLines(ws[|es|], lines, fd).Some? && forall line <- lines :: SingleLine(line)
    ensures IsRun(ws', es + LineEvents(fd, lines)) && ws <= ws'
    ensures RunLines(ws[|es|], lines, fd) == Some(ws'[|es| + |lines|])
    decreases |lines|
  {
    hide LineStep, SingleLine, Init, LineEvents;
    if lines == [] {
      assert es + LineEvents(fd, lines) == es;
      ws' := ws;
    } else {
      var w' := LineStep(ws[|es|], lines[0], fd).value;
      assert lines[0] in lines;
      RunOn(ws, es, Line(fd, lines[0]), w');
      hide IsRun;
      LineEventsCons(es, fd, lines);
      assert (ws + [w'])[|es + [Line(fd, lines[0])]|] == w';
      ws' := LinesGoOn(ws + [w'], es + [Line(fd, lines[0])], lines[1..], fd);
    }
  }

  /** A text that is survived is a run of its lines, so what holds over runs holds for a server that executes texts. */
  lemma TextGoesOn<Id>(ws: seq<World<Id>>, es: seq<Event<Id>>, message: string, fd: int) returns (ws': seq<World<Id>>)
    requires IsRun(ws, es) && RunLines(ws[|es|], LinesOf(message), fd).Some?
    ensures IsRun(ws', es + LineEvents(fd, LinesOf(message))) && ws <= ws'
    ensures RunLines(ws[|es|], LinesOf(message), fd) == Some(ws'[|es| + |LinesOf(message)|])
  {
    hide IsRun, RunLines, LinesOf, SingleLine;
    LinesAre(message);
    ws' := LinesGoOn(ws, es, LinesOf(message), fd);
  }
}
