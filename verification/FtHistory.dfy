/** Claims about whole runs of the 42-Ft_irc server. */
module FtHistory {
  import opened Lists
  import opened Text
  import opened Tokenizer
  import opened FtParser
  import FtSyntax
  import opened FtState
  import opened FtChannel
  import opened FtSteps
  import opened FtEffects
  import opened FtInvariant

  // ---------------------------------------------------------------- runs, step by step

  lemma RunStep<Id>(ws: seq<World<Id>>, es: seq<Event<Id>>, j: nat)
    requires IsRun(ws, es) && j < |es|
    ensures Inv(ws[j]) && Enabled(ws[j], es[j]) && Step(ws[j], es[j]) == Some(ws[j + 1])
  {
    hide Inv, Step, Enabled, Init;
    RunInv(ws, es, j);
    assert Enabled(ws[j], es[j]) && Step(ws[j], es[j]) == Some(ws[j + 1]);
  }

  /** Channels are never removed or renamed. */
  ghost predicate SameChannels<Id>(w: World<Id>, w': World<Id>) {
    |w.channels| <= |w'.channels| && forall i :: 0 <= i < |w.channels| ==> w'.channels[i].name == w.channels[i].name
  }

  /** What an event can do to channel `i`: a line's edit, departures, or nothing. */
  datatype Change<!Id(==)> =
    | Kept
    | By(fd: int, line: string, e: Edit<Id>)
    | Departed(info: map<Id, ClientInfo>, a: Option<Id>, b: Option<Id>)

  ghost predicate Changes<Id>(w: World<Id>, ch: Chan<Id>, ch': Chan<Id>, event: Event<Id>, change: Change<Id>) {
    match change
    case Kept => ch' == ch
    case By(fd, line, e) => event == Line(fd, line) && Allowed(w, ch, fd, line, e) && ch' == Apply(w.info, ch, e)
    case Departed(info, a, b) =>
      && Disconnects(event) && HasFd(w.info, a, event.fd) && HasFd(w.info, b, event.fd)
      && ch' == TwoLeave(info, ch, a, b)
  }

  /** The events that take a client off the server. */
  predicate Disconnects<Id>(event: Event<Id>) {
    event.Hangup? || (event.Line? && CommandOf(event.line) in {"QUIT", "USER"})
  }

  lemma LineChange<Id>(w: World<Id>, line: string, fd: int, i: nat) returns (change: Change<Id>)
    requires Inv(w) && LineStep(w, line, fd).Some? && i < |w.channels|
    ensures i < |LineStep(w, line, fd).value.channels|
    ensures Changes(w, w.channels[i], LineStep(w, line, fd).value.channels[i], Line(fd, line), change)
  {
    hide LineStep, Inv, Explains, Changes;
    var known := LiveKnown(w);
    var effect := LineExplained(w, line, fd);
    change := EffectChange(w, LineStep(w, line, fd).value, fd, line, effect, i);
  }

  lemma EffectChange<Id>(w: World<Id>, w': World<Id>, fd: int, line: string, effect: Effect<Id>, i: nat)
    returns (change: Change<Id>)
    requires Explains(w, w', fd, line, effect) && i < |w.channels|
    ensures i < |w'.channels| && Changes(w, w.channels[i], w'.channels[i], Line(fd, line), change)
  {
    hide Allowed, Apply, ProfileOk, RecordsOk, CommandOf, ParsedInfo, TwoLeave, DropFd, ByFd, ByName;
    match effect
    case Quiet => change := Kept;
    case Profile(_, _) => change := Kept;
    case Founded(_, _) => change := Kept;
    case Edited(at, e) => change := if at == i then By(fd, line, e) else Kept;
    case Gone(info, first, second) => change := Departed(info, first[i], second[i]);
  }

  lemma StepChange<Id>(w: World<Id>, event: Event<Id>, i: nat) returns (change: Change<Id>)
    requires Inv(w) && Step(w, event).Some? && i < |w.channels|
    ensures i < |Step(w, event).value.channels|
    ensures Changes(w, w.channels[i], Step(w, event).value.channels[i], event, change)
  {
    hide Inv, LineStep, Allowed, Apply, TwoLeave;
    match event
    case Connect(c, fd, host) => change := Kept;
    case Line(fd, line) => change := LineChange(w, line, fd, i);
    case Hangup(fd) =>
      LeaveIsTwoLeave(w.info, w.channels[i], fd);
      change := Departed(w.info, None, ByFd(w.info, w.channels[i].clients, fd));
  }

  /** A channel that is new after an event was founded by a JOIN of its only member and operator. */
  lemma NewChannel<Id>(w: World<Id>, event: Event<Id>, i: nat)
    requires Inv(w) && Step(w, event).Some? && |w.channels| <= i < |Step(w, event).value.channels|
    ensures i == |w.channels| && event.Line? && CommandOf(event.line) == "JOIN"
    ensures exists c :: c in w.live && ByFd(w.info, w.live, event.fd) == Some(c)
                     && Step(w, event).value.channels[i].operators == [c]
                     && Step(w, event).value.channels[i].clients == [c]
  {
    hide Inv, LineStep, Allowed, Apply, TwoLeave, ProfileOk, CommandOf, ParsedInfo, ServerRemove;
    match event
    case Connect(c, fd, host) =>
    case Hangup(fd) => RemovalCount(w, fd);
    case Line(fd, line) =>
      var known := LiveKnown(w);
      var effect := LineExplained(w, line, fd);
      assert effect.Founded?;
      assert effect.c in w.live;
  }

  lemma RemovalCount<Id>(w: World<Id>, fd: int)
    ensures |ServerRemove(w, fd).channels| == |w.channels|
  {
  }

  /** What is known of a client only grows: host and descriptor stay, a login is never undone. */
  lemma StepExtends<Id>(w: World<Id>, event: Event<Id>)
    requires Inv(w) && Enabled(w, event) && Step(w, event).Some?
    ensures Extends(w.info, Step(w, event).value.info) && Step(w, event).value.password == w.password
  {
    hide LineStep, Allowed, Apply, TwoLeave, ProfileOk, NamesOk, ChannelsOk, CommandOf, ParsedInfo, LiveOk;
    hide ServerRemove, SingleLine;
    match event
    case Connect(c, fd, host) =>
    case Hangup(fd) => RemovalInfo(w, fd);
    case Line(fd, line) =>
      var known := LiveKnown(w);
      var effect := LineExplained(w, line, fd);
      if effect.Profile? {
        ProfileExtends(w, effect.c, effect.i);
      } else if effect.Gone? {
        RecordsExtend(w, effect.before, fd);
      }
  }

  lemma RemovalInfo<Id>(w: World<Id>, fd: int)
    ensures ServerRemove(w, fd).info == w.info && ServerRemove(w, fd).password == w.password
  {
  }

  // ---------------------------------------------------------------- where operators come from

  /** Step `j` makes `c` an operator of channel `i`. */
  ghost predicate Promoted<Id>(ws: seq<World<Id>>, j: nat, i: nat, c: Id)
    requires j + 1 < |ws|
  {
    && i < |ws[j + 1].channels| && c in ws[j + 1].channels[i].operators
    && (i < |ws[j].channels| ==> c !in ws[j].channels[i].operators)
  }

  /** It does so by letting `c` into the channel while it has no members. */
  ghost predicate FoundedAt<Id>(ws: seq<World<Id>>, es: seq<Event<Id>>, j: nat, i: nat, c: Id)
    requires j < |es| && j + 1 < |ws|
  {
    && Promoted(ws, j, i, c)
    && es[j].Line? && CommandOf(es[j].line) == "JOIN" && ByFd(ws[j].info, ws[j].live, es[j].fd) == Some(c)
    && (i < |ws[j].channels| ==> ws[j].channels[i].clients == [])
  }

  /**
   * Or by a +o that names `c` on the channel, from the descriptor of its operator `s`; if `s` is connected,
   * it is the sender.
   */
  ghost predicate GrantedAt<Id>(ws: seq<World<Id>>, es: seq<Event<Id>>, j: nat, i: nat, c: Id, s: Id)
    requires j < |es| && j + 1 < |ws|
  {
    && Promoted(ws, j, i, c)
    && es[j].Line? && i < |ws[j].channels| && IsMode(es[j].line, ws[j].channels[i].name, 'o', true)
    && ByNick(ws[j].info, ws[j].channels[i].clients, NamedBy(es[j].line)) == Some(c)
    && s in ws[j].channels[i].operators && Of(ws[j].info, s).fd == es[j].fd
    && (s in ws[j].live ==> ByFd(ws[j].info, ws[j].live, es[j].fd) == Some(s))
  }

  /** Before state `k` there is a chain of grants from a founder of channel `i` down to `c`. */
  ghost predicate Chain<Id>(ws: seq<World<Id>>, es: seq<Event<Id>>, k: nat, i: nat, c: Id)
    requires k <= |es| && |ws| == |es| + 1
    decreases k
  {
    exists j :: 0 <= j < k &&
      (FoundedAt(ws, es, j, i, c) ||
       (i < |ws[j].channels| &&
        exists s :: s in ws[j].channels[i].operators && GrantedAt(ws, es, j, i, c, s) && Chain(ws, es, j, i, s)))
  }

  /** The sender's JOIN of a channel without members. */
  predicate Founds<Id(==)>(w: World<Id>, ch: Chan<Id>, fd: int, line: string, c: Id) {
    CommandOf(line) == "JOIN" && ByFd(w.info, w.live, fd) == Some(c) && ch.clients == []
  }

  /** A +o that names the member, from the descriptor of the operator `s`. */
  predicate Grants<Id(==)>(w: World<Id>, ch: Chan<Id>, fd: int, line: string, c: Id, s: Id) {
    && IsMode(line, ch.name, 'o', true) && ByNick(w.info, ch.clients, NamedBy(line)) == Some(c)
    && s in ch.operators && Of(w.info, s).fd == fd
  }

  /** A new operator of an old channel came in alone or was granted the rank. */
  lemma NewOperator<Id>(w: World<Id>, event: Event<Id>, w': World<Id>, i: nat, c: Id) returns (s: Id)
    requires Inv(w) && Step(w, event) == Some(w') && i < |w.channels| && i < |w'.channels|
    requires c in w'.channels[i].operators && c !in w.channels[i].operators
    ensures event.Line?
    ensures Founds(w, w.channels[i], event.fd, event.line, c) || Grants(w, w.channels[i], event.fd, event.line, c, s)
  {
    hide Inv, Step, IsMode, NamedBy, CommandOf, Allowed, Apply, TwoLeave;
    s := c;
    var change := StepChange(w, event, i);
    var ch := w.channels[i];
    match change
    case Kept =>
    case Departed(info, a, b) => OperatorsShrink(info, ch, a, b);
    case By(fd, line, e) => s := EditOperator(w, ch, fd, line, e, c);
  }

  lemma EditOperator<Id>(w: World<Id>, ch: Chan<Id>, fd: int, line: string, e: Edit<Id>, c: Id) returns (s: Id)
    requires Allowed(w, ch, fd, line, e) && c in Apply(w.info, ch, e).operators && c !in ch.operators
    ensures Founds(w, ch, fd, line, c) || Grants(w, ch, fd, line, c, s)
  {
    hide IsMode, IsEither, Titles, PartsFrom, Kicks, Invites, NamedBy, BanHostOf, CommandOf, ParsedInfo, Admit;
    hide LimitOfLine, UnbanHostOf, ByHost, ByNick;
    s := c;
    if e.Grant? {
      s := ByFd(w.info, ch.operators, fd).value;
    }
  }

  lemma OperatorsShrink<Id>(info: map<Id, ClientInfo>, ch: Chan<Id>, a: Option<Id>, b: Option<Id>)
    ensures forall c <- TwoLeave(info, ch, a, b).operators :: c in ch.operators
  {
    var mid := DropOption(info, ch, a);
    assert forall c <- mid.operators :: c in ch.operators;
  }

  /** An operator on the list with the sender's descriptor is the sender, unless it is gone. */
  lemma SenderIs<Id>(w: World<Id>, fd: int, s: Id)
    requires Inv(w) && Of(w.info, s).fd == fd && s in w.live
    ensures ByFd(w.info, w.live, fd) == Some(s)
  {
    hide NamesOk, ChannelsOk;
  }

  /** Every operator in every reachable state has a finite chain of grants back to a founder. */
  lemma {:induction false} OperatorProvenance<Id>(ws: seq<World<Id>>, es: seq<Event<Id>>, k: nat, i: nat, c: Id)
    requires IsRun(ws, es) && k < |ws| && i < |ws[k].channels| && c in ws[k].channels[i].operators
    ensures Chain(ws, es, k, i, c)
    decreases k
  {
    hide Inv, Step, Enabled, Chain, FoundedAt, GrantedAt;
    assert k > 0;
    var p := k - 1;
    RunStep(ws, es, p);
    if i < |ws[p].channels| && c in ws[p].channels[i].operators {
      OperatorProvenance(ws, es, p, i, c);
      ChainLater(ws, es, p, i, c);
    } else if i < |ws[p].channels| {
      var s := NewOperator(ws[p], es[p], ws[k], i, c);
      if FoundedAt(ws, es, p, i, c) {
        ChainFounded(ws, es, p, i, c);
      } else {
        NotFoundedIsGranted(ws, es, p, i, c, s);
        OperatorProvenance(ws, es, p, i, s);
        ChainGranted(ws, es, p, i, c, s);
      }
    } else {
      NewChannel(ws[p], es[p], i);
      ChainFoundedNew(ws, es, p, i, c);
    }
  }

  lemma NotFoundedIsGranted<Id>(ws: seq<World<Id>>, es: seq<Event<Id>>, j: nat, i: nat, c: Id, s: Id)
    requires j < |es| && |ws| == |es| + 1 && i < |ws[j].channels| && Inv(ws[j]) && es[j].Line? && Promoted(ws, j, i, c)
    requires var ch := ws[j].channels[i];
             Founds(ws[j], ch, es[j].fd, es[j].line, c) || Grants(ws[j], ch, es[j].fd, es[j].line, c, s)
    requires !FoundedAt(ws, es, j, i, c)
    ensures s in ws[j].channels[i].operators && GrantedAt(ws, es, j, i, c, s)
  {
    hide Inv, CommandOf, IsMode, NamedBy, Promoted;
    if s in ws[j].live {
      SenderIs(ws[j], es[j].fd, s);
    }
  }

  lemma ChainFounded<Id>(ws: seq<World<Id>>, es: seq<Event<Id>>, j: nat, i: nat, c: Id)
    requires j < |es| && |ws| == |es| + 1 && FoundedAt(ws, es, j, i, c)
    ensures Chain(ws, es, j + 1, i, c)
  {
    hide FoundedAt, GrantedAt;
  }

  lemma ChainFoundedNew<Id>(ws: seq<World<Id>>, es: seq<Event<Id>>, j: nat, i: nat, c: Id)
    requires j < |es| && |ws| == |es| + 1 && i >= |ws[j].channels|
    requires es[j].Line? && CommandOf(es[j].line) == "JOIN" && Promoted(ws, j, i, c)
    requires exists x :: x in ws[j].live && ByFd(ws[j].info, ws[j].live, es[j].fd) == Some(x)
                         && ws[j + 1].channels[i].operators == [x]
    ensures Chain(ws, es, j + 1, i, c)
  {
    hide CommandOf;
    assert FoundedAt(ws, es, j, i, c);
    ChainFounded(ws, es, j, i, c);
  }

  lemma ChainGranted<Id>(ws: seq<World<Id>>, es: seq<Event<Id>>, j: nat, i: nat, c: Id, s: Id)
    requires j < |es| && |ws| == |es| + 1 && i < |ws[j].channels| && s in ws[j].channels[i].operators
    requires GrantedAt(ws, es, j, i, c, s) && Chain(ws, es, j, i, s)
    ensures Chain(ws, es, j + 1, i, c)
  {
    hide FoundedAt, GrantedAt;
  }

  lemma ChainLater<Id>(ws: seq<World<Id>>, es: seq<Event<Id>>, k: nat, i: nat, c: Id)
    requires k < |es| && |ws| == |es| + 1 && Chain(ws, es, k, i, c)
    ensures Chain(ws, es, k + 1, i, c)
  {
    hide FoundedAt, GrantedAt;
  }

  // ---------------------------------------------------------------- who administers a channel

  /** The ban list lost the first ban of one client with the host, and nothing else. */
  ghost predicate Lifted<Id>(info: map<Id, ClientInfo>, ch: Chan<Id>, ch': Chan<Id>, host: string) {
    exists b :: b in ch.bans && Of(info, b).host == host && ch'.bans == RemoveFirst(ch.bans, b)
  }

  /** Which line of an operator may change which setting, and to what. */
  ghost predicate Administers<Id>(w: World<Id>, ch: Chan<Id>, ch': Chan<Id>, fd: int, line: string) {
    && Rules(w.info, ch, fd)
    && (ch'.limit != ch.limit ==> IsEither(line, ch.name, 'l') && ch'.limit == LimitOfLine(line, w.unset))
    && (ch'.inviteOnly != ch.inviteOnly ==> IsMode(line, ch.name, 'i', ch'.inviteOnly))
    && (ch'.password != ch.password ==> IsEither(line, ch.name, 'k') && ch'.password == NamedBy(line))
    && (ch'.topic != ch.topic ==>
          Titles(line, ch.name, ch'.topic) || (IsEither(line, ch.name, 't') && ch'.topic == NamedBy(line)))
    && (ch'.bans != ch.bans ==>
          || (IsMode(line, ch.name, 'b', true) && |ch'.bans| == |ch.bans| + 1 && ch.bans < ch'.bans
              && Of(w.info, ch'.bans[|ch.bans|]).host == BanHostOf(line))
          || (IsMode(line, ch.name, 'b', false) && Lifted(w.info, ch, ch', UnbanHostOf(line))))
    && (ch'.invites != ch.invites ==>
          && |ch'.invites| == |ch.invites| + 1 && ch.invites < ch'.invites
          && Invites(w, ch, fd, line, ch'.invites[|ch.invites|]))
  }

  ghost predicate SettingsDiffer<Id>(ch: Chan<Id>, ch': Chan<Id>) {
    ch'.limit != ch.limit || ch'.inviteOnly != ch.inviteOnly || ch'.password != ch.password
    || ch'.topic != ch.topic || ch'.bans != ch.bans || ch'.invites != ch.invites
  }

  lemma AdministeredByOperator<Id>(w: World<Id>, event: Event<Id>, w': World<Id>, i: nat)
    requires Inv(w) && Step(w, event) == Some(w') && i < |w.channels| && i < |w'.channels|
    requires SettingsDiffer(w.channels[i], w'.channels[i])
    ensures event.Line? && Administers(w, w.channels[i], w'.channels[i], event.fd, event.line)
  {
    hide Inv, Step, Allowed, Apply, TwoLeave, Administers, Disconnects, HasFd;
    var change := StepChange(w, event, i);
    match change
    case Kept =>
    case Departed(info, a, b) => LeaveKeeps(info, w.channels[i], a, b);
    case By(fd, line, e) => EditAuthority(w, w.channels[i], fd, line, e);
  }

  lemma EditAuthority<Id>(w: World<Id>, ch: Chan<Id>, fd: int, line: string, e: Edit<Id>)
    requires Allowed(w, ch, fd, line, e) && SettingsDiffer(ch, Apply(w.info, ch, e))
    ensures Administers(w, ch, Apply(w.info, ch, e), fd, line)
  {
    hide IsMode, IsEither, Titles, NamedBy, BanHostOf, CommandOf, ParsedInfo, Admit, LimitOfLine, UnbanHostOf;
    hide Joins, PartsFrom, Kicks, ByHost, ByNick, ByFd, RemoveFirst;
  }

  lemma EnteredByJoin<Id>(w: World<Id>, event: Event<Id>, w': World<Id>, i: nat)
    requires Inv(w) && Step(w, event) == Some(w') && i < |w.channels| && i < |w'.channels|
    requires |w'.channels[i].clients| > |w.channels[i].clients|
    ensures event.Line? && CommandOf(event.line) == "JOIN"
    ensures var ch := w.channels[i];
            var c := w'.channels[i].clients[|ch.clients|];
            && w'.channels[i].clients == ch.clients + [c]
            && ByFd(w.info, w.live, event.fd) == Some(c) && Of(w.info, c).login
            && (forall b <- ch.bans :: Of(w.info, b).host != Of(w.info, c).host)
            && (ch.limit == 0 || |ch.clients| != ch.limit)
            && (ch.inviteOnly ==> ByNick(w.info, ch.invites, Of(w.info, c).nick).Some?)
            && (ch.password == "" || ch.password == ParsedInfo(event.line).value)
  {
    hide Inv, Step, Allowed, Apply, TwoLeave, HasFd;
    var change := StepChange(w, event, i);
    match change
    case Kept =>
    case Departed(info, a, b) => LeaveKeeps(info, w.channels[i], a, b);
    case By(fd, line, e) => var c := EditEntry(w, w.channels[i], fd, line, e);
  }

  lemma EditEntry<Id>(w: World<Id>, ch: Chan<Id>, fd: int, line: string, e: Edit<Id>) returns (c: Id)
    requires Allowed(w, ch, fd, line, e) && |Apply(w.info, ch, e).clients| > |ch.clients|
    ensures CommandOf(line) == "JOIN" && ByFd(w.info, w.live, fd) == Some(c) && Of(w.info, c).login
    ensures Apply(w.info, ch, e).clients == ch.clients + [c] && Admit(w.info, ch, c).Joined?
    ensures (forall b <- ch.bans :: Of(w.info, b).host != Of(w.info, c).host)
    ensures (ch.limit == 0 || |ch.clients| != ch.limit)
    ensures (ch.inviteOnly ==> ByNick(w.info, ch.invites, Of(w.info, c).nick).Some?)
    ensures (ch.password == "" || ch.password == ParsedInfo(line).value)
  {
    hide IsMode, IsEither, Titles, PartsFrom, Kicks, Invites, NamedBy, BanHostOf, CommandOf, ParsedInfo, LimitOfLine;
    hide UnbanHostOf, Rules, RemoveFirst;
    assert e.Enter?;
    c := e.c;
  }

  /**
   * How an entry of a channel can go: with its connection, by its own PART, by a KICK that names it, by a ban of its
   * host.
   */
  ghost predicate Removes<Id>(w: World<Id>, ch: Chan<Id>, event: Event<Id>, c: Id) {
    || (Disconnects(event) && Of(w.info, c).fd == event.fd)
    || (event.Line? && (PartsFrom(w, ch, event.fd, event.line, c) || Kicks(w, ch, event.fd, event.line, c)))
    || (event.Line? && IsMode(event.line, ch.name, 'b', true) && Rules(w.info, ch, event.fd)
        && Of(w.info, c).host == BanHostOf(event.line))
  }

  lemma RemovedByOwnerOrOperator<Id>(w: World<Id>, event: Event<Id>, w': World<Id>, i: nat, c: Id)
    requires Inv(w) && Step(w, event) == Some(w') && i < |w.channels| && i < |w'.channels|
    requires multiset(w'.channels[i].clients)[c] < multiset(w.channels[i].clients)[c]
    ensures Removes(w, w.channels[i], event, c)
  {
    hide Inv, Step, Allowed, Apply, TwoLeave, Rules, PartsFrom, Kicks, IsMode, BanHostOf, CommandOf;
    var change := StepChange(w, event, i);
    match change
    case Kept =>
    case Departed(info, a, b) => LeaveCounts(info, w.channels[i], a, b, c);
    case By(fd, line, e) => EditCounts(w, w.channels[i], fd, line, e, c);
  }

  lemma LeaveCounts<Id>(info: map<Id, ClientInfo>, ch: Chan<Id>, a: Option<Id>, b: Option<Id>, c: Id)
    ensures a != Some(c) && b != Some(c) ==> multiset(TwoLeave(info, ch, a, b).clients)[c] == multiset(ch.clients)[c]
  {
    hide DropOption;
    DropCount(info, ch, a, c);
    DropCount(info, DropOption(info, ch, a), b, c);
  }

  lemma DropCount<Id>(info: map<Id, ClientInfo>, ch: Chan<Id>, a: Option<Id>, c: Id)
    ensures a != Some(c) ==> multiset(DropOption(info, ch, a).clients)[c] == multiset(ch.clients)[c]
  {
    hide RemoveFirst, ByNick;
    if a.Some? {
      RemoveFirstMultiset(ch.clients, a.value);
    }
  }

  lemma EditCounts<Id>(w: World<Id>, ch: Chan<Id>, fd: int, line: string, e: Edit<Id>, c: Id)
    requires Allowed(w, ch, fd, line, e) && multiset(Apply(w.info, ch, e).clients)[c] < multiset(ch.clients)[c]
    ensures || PartsFrom(w, ch, fd, line, c) || Kicks(w, ch, fd, line, c)
            || (IsMode(line, ch.name, 'b', true) && Rules(w.info, ch, fd) && Of(w.info, c).host == BanHostOf(line))
  {
    hide IsMode, IsEither, Titles, PartsFrom, Kicks, Invites, Joins, NamedBy, BanHostOf, CommandOf, ParsedInfo;
    hide LimitOfLine;
    hide UnbanHostOf, Rules, RemoveFirst, ByHost, ByNick;
    if e.Exit? || e.BanHost? {
      RemoveFirstMultiset(ch.clients, e.c);
    }
  }

  /** In every run, the settings of a channel change only by a line of one of its operators, each by its own command. */
  lemma OnlyOperatorsAdminister<Id>(ws: seq<World<Id>>, es: seq<Event<Id>>, j: nat, i: nat)
    requires IsRun(ws, es) && j < |es| && i < |ws[j].channels| && i < |ws[j + 1].channels|
    requires SettingsDiffer(ws[j].channels[i], ws[j + 1].channels[i])
    ensures es[j].Line? && Administers(ws[j], ws[j].channels[i], ws[j + 1].channels[i], es[j].fd, es[j].line)
  {
    hide Inv, Step, Enabled, Administers, SettingsDiffer, Init;
    RunStep(ws, es, j);
    AdministeredByOperator(ws[j], es[j], ws[j + 1], i);
  }

  /**
   * In every run, a new entry of a channel is the sender of a JOIN that passed ban list, limit, invite flag and key.
   */
  lemma EntryIsOwnJoin<Id>(ws: seq<World<Id>>, es: seq<Event<Id>>, j: nat, i: nat)
    requires IsRun(ws, es) && j < |es| && i < |ws[j].channels| && i < |ws[j + 1].channels|
    requires |ws[j + 1].channels[i].clients| > |ws[j].channels[i].clients|
    ensures es[j].Line? && CommandOf(es[j].line) == "JOIN"
    ensures var info, ch := ws[j].info, ws[j].channels[i];
            var c := ws[j + 1].channels[i].clients[|ch.clients|];
            && ws[j + 1].channels[i].clients == ch.clients + [c]
            && ByFd(info, ws[j].live, es[j].fd) == Some(c) && Of(info, c).login
            && (forall b <- ch.bans :: Of(info, b).host != Of(info, c).host)
            && (ch.limit == 0 || |ch.clients| != ch.limit)
            && (ch.inviteOnly ==> ByNick(info, ch.invites, Of(info, c).nick).Some?)
            && (ch.password == "" || ch.password == ParsedInfo(es[j].line).value)
  {
    hide Inv, Step, Enabled, Init, CommandOf, ParsedInfo, ByFd, ByNick;
    RunStep(ws, es, j);
    EnteredByJoin(ws[j], es[j], ws[j + 1], i);
  }

  /** In every run, the entry of another disappears only by an operator's KICK that names it or +b of its host. */
  lemma OnlyOwnerOrOperatorRemoves<Id>(ws: seq<World<Id>>, es: seq<Event<Id>>, j: nat, i: nat, c: Id)
    requires IsRun(ws, es) && j < |es| && i < |ws[j].channels| && i < |ws[j + 1].channels|
    requires multiset(ws[j + 1].channels[i].clients)[c] < multiset(ws[j].channels[i].clients)[c]
    ensures Removes(ws[j], ws[j].channels[i], es[j], c)
  {
    hide Inv, Step, Enabled, Removes, Init;
    RunStep(ws, es, j);
    RemovedByOwnerOrOperator(ws[j], es[j], ws[j + 1], i, c);
  }

  /** A TOPIC sets exactly the text between the first colon of the line and the next one, or the end. */
  lemma TopicText<Id>(w: World<Id>, line: string, fd: int, w': World<Id>, i: nat) returns (a: nat, b: nat)
    requires TopicStep(w, line, fd) == Some(w') && i < |w.channels| && i < |w'.channels|
    requires w'.channels[i].topic != w.channels[i].topic
    ensures 0 < a <= b <= |line| && w'.channels[i].topic == line[a..b]
    ensures line[a - 1] == ':' && ':' !in line[..a - 1] && ':' !in line[a..b] && (b == |line| || line[b] == ':')
  {
    hide SplitAll, ParsedInfo, ByFd, ByName;
    a, b := FtSyntax.SecondPiece(line, ':');
  }

  // ---------------------------------------------------------------- bans

  function CountHost<Id(==)>(info: map<Id, ClientInfo>, s: seq<Id>, host: string): nat {
    if s == [] then 0 else (if Of(info, s[0]).host == host then 1 else 0) + CountHost(info, s[1..], host)
  }

  lemma {:induction false} CountHostSnoc<Id>(info: map<Id, ClientInfo>, s: seq<Id>, c: Id, host: string)
    ensures CountHost(info, s + [c], host) == CountHost(info, s, host) + if Of(info, c).host == host then 1 else 0
  {
    if s != [] {
      assert (s + [c])[1..] == s[1..] + [c];
      CountHostSnoc(info, s[1..], c, host);
    }
  }

  lemma {:induction false} CountHostRemove<Id>(info: map<Id, ClientInfo>, s: seq<Id>, c: Id, host: string)
    ensures CountHost(info, RemoveFirst(s, c), host) <= CountHost(info, s, host)
  {
    if s != [] && s[0] != c {
      CountHostRemove(info, s[1..], c, host);
      assert ([s[0]] + RemoveFirst(s[1..], c))[1..] == RemoveFirst(s[1..], c);
    }
  }

  lemma {:induction false} CountHostExtends<Id>(info: map<Id, ClientInfo>, info': map<Id, ClientInfo>, s: seq<Id>,
                                                host: string)
    requires Extends(info, info') && forall c <- s :: c in info
    ensures CountHost(info', s, host) == CountHost(info, s, host)
  {
    if s != [] {
      assert s[0] in s;
      CountHostExtends(info, info', s[1..], host);
    }
  }

  ghost predicate HostBanned<Id>(info: map<Id, ClientInfo>, ch: Chan<Id>, host: string) {
    exists b :: b in ch.bans && Of(info, b).host == host
  }

  lemma CountHostLeave<Id>(info: map<Id, ClientInfo>, at: map<Id, ClientInfo>, ch: Chan<Id>, a: Option<Id>,
                           b: Option<Id>, host: string)
    ensures CountHost(info, TwoLeave(at, ch, a, b).clients, host) <= CountHost(info, ch.clients, host)
    ensures TwoLeave(at, ch, a, b).bans == ch.bans
  {
    var mid := DropOption(at, ch, a);
    if a.Some? {
      CountHostRemove(info, ch.clients, a.value, host);
    }
    if b.Some? {
      CountHostRemove(info, mid.clients, b.value, host);
    }
  }

  /** A line's edit lets nobody with a banned host in. */
  lemma EditBan<Id>(w: World<Id>, ch: Chan<Id>, fd: int, line: string, e: Edit<Id>, host: string)
    requires Allowed(w, ch, fd, line, e) && HostBanned(w.info, ch, host)
    ensures CountHost(w.info, Apply(w.info, ch, e).clients, host) <= CountHost(w.info, ch.clients, host)
  {
    hide IsMode, IsEither, Titles, PartsFrom, Kicks, Invites, NamedBy, BanHostOf, CommandOf, ParsedInfo, Rules;
    hide LimitOfLine, UnbanHostOf;
    match e
    case Enter(c) => CountHostSnoc(w.info, ch.clients, c, host);
    case Exit(c) => CountHostRemove(w.info, ch.clients, c, host);
    case BanHost(c) => CountHostRemove(w.info, ch.clients, c, host);
    case _ =>
  }

  /** A banned host stays banned unless an operator's -b names it. */
  lemma EditKeepsBan<Id>(w: World<Id>, ch: Chan<Id>, fd: int, line: string, e: Edit<Id>, host: string)
    requires Allowed(w, ch, fd, line, e) && HostBanned(w.info, ch, host)
    requires !(IsMode(line, ch.name, 'b', false) && UnbanHostOf(line) == host)
    ensures HostBanned(w.info, Apply(w.info, ch, e), host)
  {
    hide IsMode, IsEither, Titles, PartsFrom, Kicks, Invites, NamedBy, BanHostOf, CommandOf, ParsedInfo, Rules;
    hide LimitOfLine, UnbanHostOf, ByFd, ByHost, ByNick, Admit;
    var b :| b in ch.bans && Of(w.info, b).host == host;
    assert b in Apply(w.info, ch, e).bans;
  }

  ghost predicate IsUnban<Id>(event: Event<Id>, name: string, host: string) {
    event.Line? && IsMode(event.line, name, 'b', false) && UnbanHostOf(event.line) == host
  }

  lemma StepBan<Id>(w: World<Id>, event: Event<Id>, i: nat, host: string)
    requires Inv(w) && Enabled(w, event) && Step(w, event).Some? && i < |w.channels|
    requires HostBanned(w.info, w.channels[i], host)
    ensures var w' := Step(w, event).value;
            && i < |w'.channels| && w'.channels[i].name == w.channels[i].name
            && CountHost(w'.info, w'.channels[i].clients, host) <= CountHost(w.info, w.channels[i].clients, host)
            && (!IsUnban(event, w.channels[i].name, host) ==> HostBanned(w'.info, w'.channels[i], host))
  {
    hide Inv, Step, Enabled, IsUnban, Allowed, Extends, TwoLeave, Apply, HostBanned, CountHost;
    var change := StepChange(w, event, i);
    var w' := Step(w, event).value;
    var ch, ch' := w.channels[i], w'.channels[i];
    ChangeBan(w, ch, ch', event, change, host);
    StepExtends(w, event);
    MembersKnown(w, i);
    MembersKnownAfter(w, event, i);
    CountHostExtends(w.info, w'.info, ch'.clients, host);
    if HostBanned(w.info, ch', host) {
      BannedExtends(w.info, w'.info, ch', host);
    }
  }

  lemma ChangeBan<Id>(w: World<Id>, ch: Chan<Id>, ch': Chan<Id>, event: Event<Id>, change: Change<Id>, host: string)
    requires Changes(w, ch, ch', event, change) && HostBanned(w.info, ch, host)
    ensures ch'.name == ch.name && CountHost(w.info, ch'.clients, host) <= CountHost(w.info, ch.clients, host)
    ensures !IsUnban(event, ch.name, host) ==> HostBanned(w.info, ch', host)
  {
    hide Allowed, TwoLeave, Apply, HostBanned, CountHost, IsMode, UnbanHostOf;
    match change
    case Kept =>
    case Departed(info, a, b) =>
      CountHostLeave(w.info, info, ch, a, b, host);
      LeaveKeeps(info, ch, a, b);
      SameBans(w.info, ch, ch', host);
    case By(fd, line, e) =>
      EditBan(w, ch, fd, line, e, host);
      EditName(w.info, ch, e);
      if !IsUnban(event, ch.name, host) {
        EditKeepsBan(w, ch, fd, line, e, host);
      }
  }

  lemma SameBans<Id>(info: map<Id, ClientInfo>, ch: Chan<Id>, ch': Chan<Id>, host: string)
    requires ch'.bans == ch.bans
    ensures HostBanned(info, ch', host) <==> HostBanned(info, ch, host)
  {
  }

  lemma LeaveKeeps<Id>(info: map<Id, ClientInfo>, ch: Chan<Id>, a: Option<Id>, b: Option<Id>)
    ensures var after := TwoLeave(info, ch, a, b); after == ch.(clients := after.clients, operators := after.operators)
    ensures |TwoLeave(info, ch, a, b).clients| <= |ch.clients|
    ensures forall c <- TwoLeave(info, ch, a, b).clients :: c in ch.clients
  {
  }

  lemma EditName<Id>(info: map<Id, ClientInfo>, ch: Chan<Id>, e: Edit<Id>)
    ensures Apply(info, ch, e).name == ch.name
  {
  }

  lemma MembersKnown<Id>(w: World<Id>, i: nat)
    requires Inv(w) && i < |w.channels|
    ensures forall c <- w.channels[i].clients :: c in w.info
    ensures forall c <- w.channels[i].bans :: c in w.info
    ensures forall c <- w.live :: c in w.info
  {
    assert ChanOk(w.info, w.channels[i]);
  }

  /** Whoever is on a channel or its ban list after an event was known before it. */
  lemma MembersKnownAfter<Id>(w: World<Id>, event: Event<Id>, i: nat)
    requires Inv(w) && Step(w, event).Some? && i < |w.channels| && i < |Step(w, event).value.channels|
    ensures forall c <- Step(w, event).value.channels[i].clients :: c in w.info
    ensures forall c <- Step(w, event).value.channels[i].bans :: c in w.info
  {
    hide Inv, Step, Allowed, Apply, TwoLeave;
    MembersKnown(w, i);
    var change := StepChange(w, event, i);
    match change
    case Kept =>
    case Departed(info, a, b) => LeaveKeeps(info, w.channels[i], a, b);
    case By(fd, line, e) => EditMembers(w, w.channels[i], fd, line, e);
  }

  lemma EditMembers<Id>(w: World<Id>, ch: Chan<Id>, fd: int, line: string, e: Edit<Id>)
    requires Allowed(w, ch, fd, line, e)
    ensures forall c <- Apply(w.info, ch, e).clients :: c in ch.clients || c in w.live
    ensures forall c <- Apply(w.info, ch, e).bans :: c in ch.bans || c in ch.clients
  {
    hide IsMode, IsEither, Titles, PartsFrom, Kicks, Invites, NamedBy, BanHostOf, CommandOf, ParsedInfo, Admit;
    hide LimitOfLine, UnbanHostOf, ByHost, ByNick, Rules;
  }

  lemma BannedExtends<Id>(info: map<Id, ClientInfo>, info': map<Id, ClientInfo>, ch: Chan<Id>, host: string)
    requires Extends(info, info') && HostBanned(info, ch, host) && forall c <- ch.bans :: c in info
    ensures HostBanned(info', ch, host)
  {
    var b :| b in ch.bans && Of(info, b).host == host;
    assert Of(info', b).host == host;
  }

  /** From a ban until a -b that names the host, the entries with that host never become more. */
  lemma {:induction false} BanMonotone<Id>(ws: seq<World<Id>>, es: seq<Event<Id>>, a: nat, b: nat, i: nat, host: string)
    requires IsRun(ws, es) && a <= b < |ws| && i < |ws[a].channels| && HostBanned(ws[a].info, ws[a].channels[i], host)
    requires forall j :: a <= j < b ==> !IsUnban(es[j], ws[a].channels[i].name, host)
    ensures i < |ws[b].channels| && ws[b].channels[i].name == ws[a].channels[i].name
    ensures HostBanned(ws[b].info, ws[b].channels[i], host)
    ensures CountHost(ws[b].info, ws[b].channels[i].clients, host)
         <= CountHost(ws[a].info, ws[a].channels[i].clients, host)
    decreases b - a
  {
    hide Inv, Step, Enabled, HostBanned, CountHost, IsUnban;
    if a < b {
      var p := b - 1;
      BanMonotone(ws, es, a, p, i, host);
      RunStep(ws, es, p);
      assert !IsUnban(es[p], ws[a].channels[i].name, host);
      StepBan(ws[p], es[p], i, host);
    }
  }

  // ---------------------------------------------------------------- limits

  ghost predicate IsLimit<Id>(event: Event<Id>, name: string) {
    event.Line? && (IsMode(event.line, name, 'l', true) || IsMode(event.line, name, 'l', false))
  }

  /** The channel keeps to its limit. */
  predicate Capped<Id>(ch: Chan<Id>, n: nat) {
    ch.limit == n && |ch.clients| <= n
  }

  lemma StepCap<Id>(w: World<Id>, event: Event<Id>, i: nat, n: nat)
    requires Inv(w) && Step(w, event).Some? && i < |w.channels| && n > 0 && Capped(w.channels[i], n)
    requires !IsLimit(event, w.channels[i].name)
    ensures var w' := Step(w, event).value;
            i < |w'.channels| && w'.channels[i].name == w.channels[i].name && Capped(w'.channels[i], n)
  {
    hide Inv, Step, Allowed, Apply, TwoLeave, IsMode;
    var change := StepChange(w, event, i);
    match change
    case Kept =>
    case Departed(info, a, b) => LeaveKeeps(info, w.channels[i], a, b);
    case By(fd, line, e) => EditCap(w, w.channels[i], fd, line, e, n);
  }

  lemma EditCap<Id>(w: World<Id>, ch: Chan<Id>, fd: int, line: string, e: Edit<Id>, n: nat)
    requires Allowed(w, ch, fd, line, e) && n > 0 && Capped(ch, n)
    requires !IsMode(line, ch.name, 'l', true) && !IsMode(line, ch.name, 'l', false)
    ensures Capped(Apply(w.info, ch, e), n) && Apply(w.info, ch, e).name == ch.name
  {
    hide IsMode, Titles, PartsFrom, Kicks, Invites, NamedBy, BanHostOf, CommandOf, ParsedInfo, LimitOfLine, UnbanHostOf;
    hide ByHost, ByNick, ByFd, Rules;
  }

  /**
   * A positive limit caps a channel in all later states, up to the next l mode on it, exactly when the
   * channel fits at the start; this although a join only tests for equality.
   */
  lemma {:induction false} CapHoldsIff<Id>(ws: seq<World<Id>>, es: seq<Event<Id>>, a: nat, b: nat, i: nat, n: nat)
    requires IsRun(ws, es) && a <= b < |ws| && i < |ws[a].channels| && n > 0 && ws[a].channels[i].limit == n
    requires forall j :: a <= j < b ==> !IsLimit(es[j], ws[a].channels[i].name)
    ensures |ws[a].channels[i].clients| <= n <==>
            forall k :: a <= k <= b ==> i < |ws[k].channels| && Capped(ws[k].channels[i], n)
  {
    hide IsRun;
    if |ws[a].channels[i].clients| <= n {
      forall k | a <= k <= b ensures i < |ws[k].channels| && Capped(ws[k].channels[i], n) {
        CapHolds(ws, es, a, k, i, n);
      }
    } else {
      assert !Capped(ws[a].channels[i], n);
    }
  }

  lemma {:induction false} CapHolds<Id>(ws: seq<World<Id>>, es: seq<Event<Id>>, a: nat, b: nat, i: nat, n: nat)
    requires IsRun(ws, es) && a <= b < |ws| && i < |ws[a].channels| && n > 0 && Capped(ws[a].channels[i], n)
    requires forall j :: a <= j < b ==> !IsLimit(es[j], ws[a].channels[i].name)
    ensures i < |ws[b].channels| && ws[b].channels[i].name == ws[a].channels[i].name && Capped(ws[b].channels[i], n)
    decreases b - a
  {
    hide Inv, Step, Enabled, IsLimit, Capped;
    if a < b {
      var p := b - 1;
      CapHolds(ws, es, a, p, i, n);
      RunStep(ws, es, p);
      assert !IsLimit(es[p], ws[a].channels[i].name);
      StepCap(ws[p], es[p], i, n);
    }
  }

  /** An l mode of an operator always takes effect, though the limit is only set inside the loop over the members. */
  lemma LimitTakesEffect<Id>(w: World<Id>, line: string, fd: int, i: nat)
    requires Inv(w) && ' ' in line && ParsedMode(line).Some? && LowerChar(ParsedMode(line).value.key) == 'l'
    requires ByName(w.channels, ParsedMode(line).value.channel) == Some(i) && Rules(w.info, w.channels[i], fd)
    ensures ModeStep(w, line, fd) == Some(With(w, i, w.channels[i].(limit := LimitOfLine(line, w.unset))))
  {
    hide Inv, ParsedMode, Words, ApplyMode, LimitOfLine, LowerChar, ByFd;
    ModeHasWords(line);
    OperatorMeansMember(w, i, fd);
    ApplyLimit(w, i, line);
  }

  lemma ModeHasWords(line: string)
    requires ParsedMode(line).Some?
    ensures |Words(line)| >= 3
  {
  }

  lemma OperatorMeansMember<Id>(w: World<Id>, i: nat, fd: int)
    requires Inv(w) && i < |w.channels| && Rules(w.info, w.channels[i], fd)
    ensures w.channels[i].clients != []
  {
    hide LiveOk, NamesOk;
    assert ChanOk(w.info, w.channels[i]);
    assert ByFd(w.info, w.channels[i].operators, fd).value in w.channels[i].clients;
  }

  lemma ApplyLimit<Id>(w: World<Id>, i: nat, line: string)
    requires i < |w.channels| && w.channels[i].clients != []
    requires ParsedMode(line).Some? && LowerChar(ParsedMode(line).value.key) == 'l'
    ensures ApplyMode(w, i, ParsedMode(line).value)
         == Some(With(w, i, w.channels[i].(limit := LimitOfLine(line, w.unset))))
  {
    hide ParsedMode, ToInt, OperatorStep, BanStep;
  }
}
