/**
 * 42-Ft_irc as long as nobody joins a channel twice: the entries of a channel are its connected members, so that a
 * test by descriptor is a test of the person.
 */
module FtPersons {
  import opened Lists
  import opened Text
  import opened FtParser
  import opened FtState
  import opened FtChannel
  import opened FtSteps
  import opened FtEffects
  import opened FtInvariant
  import opened FtHistory

  /** Each member has one entry, and is connected. */
  ghost predicate Present<Id>(live: seq<Id>, ch: Chan<Id>) {
    Distinct(ch.clients) && forall c <- ch.clients :: c in live
  }

  ghost predicate Settled<Id>(w: World<Id>) {
    forall i :: 0 <= i < |w.channels| ==> Present(w.live, w.channels[i])
  }

  /** The line is a JOIN for a channel that its sender is on. */
  predicate Rejoins<Id(==)>(w: World<Id>, event: Event<Id>) {
    && event.Line? && CommandOf(event.line) == "JOIN"
    && match ByFd(w.info, w.live, event.fd)
       case None => false
       case Some(c) =>
         match ByName(w.channels, ParsedInfo(event.line).function_)
         case None => false
         case Some(i) => c in w.channels[i].clients
  }

  /** The line is a JOIN that passes the checks of the dispatcher and of the channel, though its sender is on it. */
  predicate LetsInAgain<Id(==)>(w: World<Id>, event: Event<Id>) {
    && event.Line? && CommandOf(event.line) == "JOIN" && CheckLine(w, event.line, event.fd).Run?
    && match ByFd(w.info, w.live, event.fd)
       case None => false
       case Some(c) =>
         var p := ParsedInfo(event.line);
         match ByName(w.channels, p.function_)
         case None => false
         case Some(i) =>
           var ch := w.channels[i];
           && c in ch.clients && (ch.password == "" || ch.password == p.value)
           && Admit(w.info, ch, c).Joined?
  }

  // ---------------------------------------------------------------- one event

  /** Such a line, and no other JOIN for a channel that its sender is on, changes the server. */
  lemma AgainIs<Id>(w: World<Id>, line: string, fd: int)
    requires LineStep(w, line, fd).Some?
    ensures LetsInAgain(w, Line(fd, line))
       <==> Rejoins(w, Line(fd, line)) && LineStep(w, line, fd).value != w
  {
    hide CommandOf, ParsedInfo, CheckLine, ByHost, ByNick;
    if Rejoins(w, Line(fd, line)) && CheckLine(w, line, fd).Run? {
      GateRuns(w, line, fd);
      assert LineStep(w, line, fd) == JoinStep(w, line, fd);
      var c := ByFd(w.info, w.live, fd).value;
      var i := ByName(w.channels, ParsedInfo(line).function_).value;
      var ch := w.channels[i];
      if Admit(w.info, ch, c).Joined? {
        assert |Admit(w.info, ch, c).ch.clients| == |ch.clients| + 1;
        assert With(w, i, Admit(w.info, ch, c).ch).channels[i] == Admit(w.info, ch, c).ch;
      }
    }
  }

  /** An edit keeps the entries distinct and connected, but for the entry of a client that has one. */
  lemma EditPresent<Id>(w: World<Id>, ch: Chan<Id>, fd: int, line: string, e: Edit<Id>)
    requires Present(w.live, ch) && Allowed(w, ch, fd, line, e)
    ensures Present(w.live, Apply(w.info, ch, e)) <==> !(e.Enter? && e.c in ch.clients)
    ensures CommandOf(line) == "JOIN" <==> e.Enter?
  {
    hide NamedBy, BanHostOf, ParsedInfo, ParsedMode, LimitOfLine, UnbanHostOf, Rules, RemoveFirst, CommandOf, KickHead;
    match e
    case Enter(c) =>
      var after := ch.clients + [c];
      if c !in ch.clients {
        DistinctSnoc(ch.clients, c);
      } else {
        var k :| 0 <= k < |ch.clients| && ch.clients[k] == c;
        assert after[k] == after[|ch.clients|];
      }
    case Exit(c) => RemoveFirstDistinct(ch.clients, c);
    case BanHost(c) => RemoveFirstDistinct(ch.clients, c);
    case _ =>
  }

  /** Taking the client of a descriptor off the list and off a channel leaves the channel's members connected. */
  lemma DepartPresent<Id>(info: map<Id, ClientInfo>, live: seq<Id>, ch: Chan<Id>, fd: int, first: Option<Id>)
    requires LiveOk(info, live) && Present(live, ch) && HasFd(info, first, fd)
    ensures var mid := DropOption(info, ch, first);
            Present(DropFd(info, DropFd(info, live, fd), fd), DropOption(info, mid, ByFd(info, mid.clients, fd)))
  {
    hide ByNick;
    var mid := DropOption(info, ch, first);
    var second := ByFd(info, mid.clients, fd);
    var after := DropOption(info, mid, second);
    if first.Some? {
      RemoveFirstDistinct(ch.clients, first.value);
    }
    if second.Some? {
      RemoveFirstDistinct(mid.clients, second.value);
    }
    LiveAfter(info, live, fd);
    forall c | c in after.clients ensures c in DropFd(info, DropFd(info, live, fd), fd) {
      assert c in mid.clients && c in ch.clients;
      if second.Some? {
        assert second.value in mid.clients && second.value in ch.clients;
      }
    }
  }

  lemma LiveAfter<Id>(info: map<Id, ClientInfo>, live: seq<Id>, fd: int)
    requires LiveOk(info, live)
    ensures forall c <- live :: Of(info, c).fd != fd ==> c in DropFd(info, DropFd(info, live, fd), fd)
  {
    hide RemoveFirst;
  }

  /** The records of a departure keep what the invariant says of the connected clients. */
  lemma RecordsLive<Id>(w: World<Id>, info: map<Id, ClientInfo>, fd: int)
    requires LiveOk(w.info, w.live) && RecordsOk(w, info, fd)
    ensures LiveOk(info, w.live) && forall c :: Of(info, c).fd == Of(w.info, c).fd
  {
  }

  lemma GoneSettled<Id>(w: World<Id>, w': World<Id>, fd: int, first: seq<Option<Id>>, second: seq<Option<Id>>)
    requires LiveOk(w.info, w.live) && Settled(w) && GoneTo(w, w', fd, first, second)
    ensures Settled(w')
  {
    hide LiveOk, RecordsOk, Present, DropFd, DropOption, HasFd;
    RecordsLive(w, w'.info, fd);
    forall i | 0 <= i < |w'.channels| ensures Present(w'.live, w'.channels[i]) {
      assert Present(w.live, w.channels[i]) && HasFd(w.info, first[i], fd);
      SameFd(w.info, w'.info, first[i], fd);
      DepartPresent(w'.info, w.live, w.channels[i], fd, first[i]);
      assert w'.channels[i] == TwoLeave(w'.info, w.channels[i], first[i], second[i]);
    }
  }

  lemma SameFd<Id>(info: map<Id, ClientInfo>, info': map<Id, ClientInfo>, c: Option<Id>, fd: int)
    requires HasFd(info, c, fd) && forall x :: Of(info', x).fd == Of(info, x).fd
    ensures HasFd(info', c, fd)
  {
  }

  lemma HangupSettled<Id>(w: World<Id>, fd: int)
    requires LiveOk(w.info, w.live) && Settled(w)
    ensures Settled(ServerRemove(w, fd))
  {
    hide Settled, GoneTo, LiveOk;
    var first, second := RemovalIsGone(w, w, fd);
    GoneSettled(w, ServerRemove(w, fd), fd, first, second);
  }

  lemma ConnectSettled<Id>(w: World<Id>, c: Id, fd: int, host: string)
    requires Settled(w)
    ensures Settled(w.(info := w.info[c := Newcomer(fd, host)], live := w.live + [c]))
  {
    hide Distinct;
    forall i | 0 <= i < |w.channels| ensures Present(w.live + [c], w.channels[i]) {
      assert Present(w.live, w.channels[i]);
    }
  }

  lemma FoundedSettled<Id>(w: World<Id>, c: Id, name: string)
    requires Settled(w) && c in w.live
    ensures Settled(w.(channels := w.channels + [NewChan(name).(clients := [c], operators := [c])]))
  {
    assert [c][0] == c && Present(w.live, NewChan(name).(clients := [c], operators := [c]));
    hide Present;
  }

  /** An edit of one channel settles or unsettles the server with that channel. */
  lemma EditedSettled<Id>(w: World<Id>, i: nat, fd: int, line: string, e: Edit<Id>)
    requires Inv(w) && Settled(w) && i < |w.channels| && Allowed(w, w.channels[i], fd, line, e)
    ensures var w' := With(w, i, Apply(w.info, w.channels[i], e));
            Settled(w') <==> !(Rejoins(w, Line(fd, line)) && w' != w)
  {
    hide LiveOk, ChannelsOk, Allowed, Apply, Present, CommandOf, ParsedInfo, NameOk;
    var ch := w.channels[i];
    var ch' := Apply(w.info, ch, e);
    var w' := With(w, i, ch');
    assert Present(w.live, ch);
    EditPresent(w, ch, fd, line, e);
    if e.Enter? {
      EnterIs(w, i, fd, line, e.c);
    }
    if Present(w.live, ch') {
      forall k | 0 <= k < |w'.channels| ensures Present(w'.live, w'.channels[k]) {
        assert Present(w.live, w.channels[k]);
      }
    } else {
      assert w'.channels[i] == ch';
    }
  }

  /** The channel that a JOIN names is the one it enters, and entering changes it. */
  lemma EnterIs<Id>(w: World<Id>, i: nat, fd: int, line: string, c: Id)
    requires NamesOk(w.channels) && i < |w.channels| && Allowed(w, w.channels[i], fd, line, Enter(c))
    ensures Rejoins(w, Line(fd, line)) <==> c in w.channels[i].clients
    ensures With(w, i, Apply(w.info, w.channels[i], Enter(c))) != w
  {
    hide CommandOf, ParsedInfo, Admit, NameOk;
    assert ByName(w.channels, w.channels[i].name) == Some(i);
    assert |Apply(w.info, w.channels[i], Enter(c)).clients| == |w.channels[i].clients| + 1;
  }

  lemma LineSettled<Id>(w: World<Id>, line: string, fd: int)
    requires Inv(w) && Settled(w) && LineStep(w, line, fd).Some?
    ensures Settled(LineStep(w, line, fd).value) <==> !LetsInAgain(w, Line(fd, line))
  {
    hide LetsInAgain, LineStep, Inv, Allowed, Apply, Settled, Rejoins, GoneTo, ProfileOk, RecordsOk, CommandOf;
    hide ParsedInfo;
    AgainIs(w, line, fd);
    var known := LiveKnown(w);
    var effect := LineExplained(w, line, fd);
    NotRejoined(w, fd, line, effect);
    InvLive(w);
    match effect
    case Quiet =>
    case Profile(c, i) => ProfileSettled(w, c, i);
    case Founded(c, name) => FoundedSettled(w, c, name);
    case Edited(i, e) => EditedSettled(w, i, fd, line, e);
    case Gone(info, first, second) => GoneSettled(w, LineStep(w, line, fd).value, fd, first, second);
  }

  lemma InvLive<Id>(w: World<Id>)
    requires Inv(w)
    ensures LiveOk(w.info, w.live) && NamesOk(w.channels)
  {
  }

  lemma ProfileSettled<Id>(w: World<Id>, c: Id, i: ClientInfo)
    requires Settled(w)
    ensures Settled(SetInfo(w, c, i))
  {
    hide Present;
  }

  lemma NotRejoined<Id>(w: World<Id>, fd: int, line: string, effect: Effect<Id>)
    requires effect.Profile? ==> ProfileLine(line, Of(w.info, effect.c), effect.i)
    requires effect.Founded? ==>
               ByName(w.channels, ParsedInfo(line).function_).None? && ByFd(w.info, w.live, fd) == Some(effect.c)
    requires effect.Gone? ==> CommandOf(line) in {"USER", "QUIT"}
    ensures effect.Profile? || effect.Founded? || effect.Gone? ==> !Rejoins(w, Line(fd, line))
    ensures effect.Founded? ==> effect.c in w.live
  {
    hide CommandOf, ParsedInfo;
  }

  /** An event keeps the server settled if and only if it is no JOIN that passes all checks, sent by a member. */
  lemma StepSettledIff<Id>(w: World<Id>, event: Event<Id>)
    requires Inv(w) && Settled(w) && Enabled(w, event) && Step(w, event).Some?
    ensures Settled(Step(w, event).value) <==> !LetsInAgain(w, event)
  {
    hide CheckLine, LineStep, ServerRemove, Inv, Settled;
    match event
    case Connect(c, fd, host) => ConnectSettled(w, c, fd, host);
    case Line(fd, line) => LineSettled(w, line, fd);
    case Hangup(fd) =>
      InvLive(w);
      HangupSettled(w, fd);
  }

  // ---------------------------------------------------------------- runs

  /** The states of a run are settled as long as no line lets a member in again, and no longer. */
  lemma {:induction false} RunSettledIff<Id>(ws: seq<World<Id>>, es: seq<Event<Id>>, k: nat)
    requires IsRun(ws, es) && k < |ws|
    ensures (forall j :: 0 <= j < k ==> !LetsInAgain(ws[j], es[j])) <==> (forall j :: 0 <= j <= k ==> Settled(ws[j]))
  {
    hide Inv, Step, Enabled, LetsInAgain;
    if k > 0 {
      RunSettledIff(ws, es, k - 1);
      RunStep(ws, es, k - 1);
      if Settled(ws[k - 1]) {
        hide Settled;
        StepSettledIff(ws[k - 1], es[k - 1]);
      }
    }
  }

  // ---------------------------------------------------------------- rights of persons

  /** In a settled state, the test for an operator by descriptor is the test whether the sender is one. */
  lemma SenderRules<Id>(w: World<Id>, i: nat, fd: int)
    requires Inv(w) && Settled(w) && i < |w.channels|
    ensures Rules(w.info, w.channels[i], fd)
       <==> ByFd(w.info, w.live, fd).Some? && ByFd(w.info, w.live, fd).value in w.channels[i].operators
  {
    hide NamesOk;
    var ch := w.channels[i];
    assert ChanOk(w.info, ch) && Present(w.live, ch);
    if Rules(w.info, ch, fd) {
      SenderIs(w, fd, ByFd(w.info, ch.operators, fd).value);
    }
  }

  /** A chain of grants in which each grant was sent by the operator itself. */
  ghost predicate PersonalChain<Id>(ws: seq<World<Id>>, es: seq<Event<Id>>, k: nat, i: nat, c: Id)
    requires k <= |es| && |ws| == |es| + 1
    decreases k
  {
    exists j :: 0 <= j < k &&
      (FoundedAt(ws, es, j, i, c) ||
       (i < |ws[j].channels| &&
        exists s :: s in ws[j].channels[i].operators && GrantedBy(ws, es, j, i, c, s)
          && PersonalChain(ws, es, j, i, s)))
  }

  /** Step `j` makes `c` an operator by a +o that the operator `s` sent. */
  ghost predicate GrantedBy<Id>(ws: seq<World<Id>>, es: seq<Event<Id>>, j: nat, i: nat, c: Id, s: Id)
    requires j < |es| && j + 1 < |ws|
  {
    GrantedAt(ws, es, j, i, c, s) && ByFd(ws[j].info, ws[j].live, es[j].fd) == Some(s)
  }

  lemma {:induction false} ChainIsPersonal<Id>(ws: seq<World<Id>>, es: seq<Event<Id>>, k: nat, i: nat, c: Id)
    requires IsRun(ws, es) && k <= |es| && |ws| == |es| + 1 && Chain(ws, es, k, i, c)
    requires forall j :: 0 <= j < k ==> Settled(ws[j])
    ensures PersonalChain(ws, es, k, i, c)
    decreases k
  {
    hide Inv, Step, Enabled, IsRun, FoundedAt, GrantedAt, GrantedBy, Settled;
    var j :| 0 <= j < k &&
      (FoundedAt(ws, es, j, i, c) ||
       (i < |ws[j].channels| &&
        exists s :: s in ws[j].channels[i].operators && GrantedAt(ws, es, j, i, c, s) && Chain(ws, es, j, i, s)));
    if !FoundedAt(ws, es, j, i, c) {
      var s :| s in ws[j].channels[i].operators && GrantedAt(ws, es, j, i, c, s) && Chain(ws, es, j, i, s);
      ChainIsPersonal(ws, es, j, i, s);
      RunStep(ws, es, j);
      GranterSent(ws, es, j, i, c, s);
    }
  }

  lemma GranterSent<Id>(ws: seq<World<Id>>, es: seq<Event<Id>>, j: nat, i: nat, c: Id, s: Id)
    requires j < |es| && |ws| == |es| + 1 && Inv(ws[j]) && Settled(ws[j]) && i < |ws[j].channels|
    requires GrantedAt(ws, es, j, i, c, s)
    ensures GrantedBy(ws, es, j, i, c, s)
  {
    hide Promoted, IsMode, NamedBy, LiveOk, NamesOk;
    assert ChanOk(ws[j].info, ws[j].channels[i]) && Present(ws[j].live, ws[j].channels[i]);
  }

  /** While no line lets a member in again, every operator has a chain of grants sent by operators in person. */
  lemma OperatorProvenanceByPerson<Id>(ws: seq<World<Id>>, es: seq<Event<Id>>, k: nat, i: nat, c: Id)
    requires IsRun(ws, es) && k < |ws| && i < |ws[k].channels| && c in ws[k].channels[i].operators
    requires forall j :: 0 <= j < k ==> !LetsInAgain(ws[j], es[j])
    ensures PersonalChain(ws, es, k, i, c)
  {
    assert |ws| == |es| + 1;
    hide IsRun, Chain, PersonalChain, Settled, LetsInAgain;
    RunSettledIff(ws, es, k);
    OperatorProvenance(ws, es, k, i, c);
    ChainIsPersonal(ws, es, k, i, c);
  }
}
