/**
 * The event loop of `_irc_` on the server's state: a round of handlers is a run of events, and nobody waits for ever.
 */
module IrcLoop {
  import opened Lists
  import opened Text
  import opened Tokenizer
  import opened Wire
  import opened IrcText
  import opened IrcState
  import opened IrcSteps
  import opened IrcInvariant
  import opened IrcPoll

  /** What `receiveMessage` yields: a text, or the end of the connection or an error, which both close it. */
  datatype Reception = Received(text: string) | Ended

  /** `handleClientMessage`. */
  ghost function Serve<Id>(w: World<Id>, fd: int, got: Reception, closes: bool): Option<World<Id>> {
    match got
    case Received(text) => RunLines(w, fd, Lines(text), closes)
    case Ended => Some(if closes then Close(w, fd) else w)
  }

  /** `acceptConnection`: the new descriptor and the address, if there is a connection. */
  ghost function Admit<Id>(w: World<Id>, accepted: Option<(int, string)>, newcomer: Option<Id>): World<Id> {
    if accepted.Some? && newcomer.Some? then
      var (fd, ip) := accepted.value;
      var c := newcomer.value;
      w.(info := w.info[c := Newcomer(fd, ip)], clients := w.clients[fd := c], fds := w.fds + [fd])
    else w
  }

  /** The handlers of a round, one after the other. */
  ghost function Handlers<Id>(w: World<Id>, handled: seq<int>, accepted: Option<(int, string)>, newcomer: Option<Id>,
                              inputs: int -> Reception, closes: int -> bool): Option<World<Id>>
    decreases |handled|
  {
    if handled == [] then Some(w)
    else
      var last := handled[|handled| - 1];
      match Handlers(w, handled[..|handled| - 1], accepted, newcomer, inputs, closes)
      case None => None
      case Some(v) =>
        if last == v.listener then Some(Admit(v, accepted, newcomer)) else Serve(v, last, inputs(last), closes(last))
  }

  lemma HandlersNext<Id>(w: World<Id>, handled: seq<int>, fd: int, accepted: Option<(int, string)>,
                         newcomer: Option<Id>,
                         inputs: int -> Reception, closes: int -> bool)
    requires Handlers(w, handled, accepted, newcomer, inputs, closes).Some?
    ensures var v := Handlers(w, handled, accepted, newcomer, inputs, closes).value;
            Handlers(w, handled + [fd], accepted, newcomer, inputs, closes)
            == if fd == v.listener then Some(Admit(v, accepted, newcomer)) else Serve(v, fd, inputs(fd), closes(fd))
  {
    hide Admit, Serve;
    assert (handled + [fd])[..|handled + [fd]| - 1] == handled;
  }

  lemma HandlersNone<Id>(w: World<Id>, accepted: Option<(int, string)>, newcomer: Option<Id>, inputs: int -> Reception,
                         closes: int -> bool)
    ensures Handlers(w, [], accepted, newcomer, inputs, closes) == Some(w)
  {
  }

  // ---------------------------------------------------------------- what a handler does to the tables

  /** The connections before and after: nothing changes, or the one descriptor is closed. */
  ghost predicate ClosesAtMost<Id>(w: World<Id>, w': World<Id>, fd: int) {
    && w'.listener == w.listener
    && if fd in w'.clients then w'.clients == w.clients && w'.fds == w.fds
       else w'.clients == w.clients - {fd} && w'.fds == Without(w.fds, fd)
  }

  lemma LineCloses<Id>(w: World<Id>, fd: int, line: string, closes: bool)
    requires Inv(w) && LineStep(w, fd, line, closes).Some?
    ensures ClosesAtMost(w, LineStep(w, fd, line, closes).value, fd)
  {
    hide CommandParts, Says, PartAll, ByNick, LeaveAt, Leave, Targets, Without, DropEntry, NickTaken;
    hide PollOk, NicksOk, LadderOk, ChannelsOk, Tokenizer.Join, StripColon, SplitAll;
    assert w.clients[fd] in w.info && w.info[w.clients[fd]].fd == fd;
  }

  /** The lines of one text close at most their own connection, and keep the invariant. */
  lemma {:induction false} LinesClose<Id>(w: World<Id>, fd: int, lines: seq<string>, closes: bool)
    requires Inv(w) && fd in w.clients && RunLines(w, fd, lines, closes).Some?
    ensures ClosesAtMost(w, RunLines(w, fd, lines, closes).value, fd) && Inv(RunLines(w, fd, lines, closes).value)
    decreases |lines|
  {
    hide Inv, LineStep;
    if lines != [] {
      LineInv(w, fd, lines[0], closes);
      LineCloses(w, fd, lines[0], closes);
      var w' := LineStep(w, fd, lines[0], closes).value;
      if fd in w'.clients {
        LinesClose(w', fd, lines[1..], closes);
      } else {
        AfterQuit(w', fd, lines[1..], closes);
      }
    }
  }

  /** After a QUIT in the same text, there is no survivable line. */
  lemma AfterQuit<Id>(w: World<Id>, fd: int, lines: seq<string>, closes: bool)
    requires fd !in w.clients && RunLines(w, fd, lines, closes).Some?
    ensures lines == []
  {
  }

  lemma ServeCloses<Id>(w: World<Id>, fd: int, got: Reception, closes: bool)
    requires Inv(w) && fd in w.clients && Serve(w, fd, got, closes).Some?
    ensures ClosesAtMost(w, Serve(w, fd, got, closes).value, fd) && Inv(Serve(w, fd, got, closes).value)
  {
    hide Inv, RunLines, Lines, Without, DropEntry;
    match got
    case Received(text) => LinesClose(w, fd, Lines(text), closes);
    case Ended =>
      ListenerApart(w);
      CloseInv(w, fd);
  }

  lemma ListenerApart<Id>(w: World<Id>)
    requires Inv(w)
    ensures w.listener !in w.clients && PollSet(w.listener, w.clients.Keys, w.fds)
  {
  }

  // ---------------------------------------------------------------- a round is a run of events

  /** The states of a run from `w` to `w'`, one event after the other. */
  ghost predicate Leads<Id>(w: World<Id>, ws: seq<World<Id>>, es: seq<Event<Id>>, w': World<Id>) {
    && |ws| == |es| + 1 && ws[0] == w && ws[|es|] == w'
    && forall k :: 0 <= k < |es| ==> Enabled(ws[k], es[k]) && Step(ws[k], es[k]) == Some(ws[k + 1])
  }

  lemma LeadsOn<Id>(w: World<Id>, ws: seq<World<Id>>, es: seq<Event<Id>>, v: World<Id>, e: Event<Id>, v': World<Id>)
    requires Leads(w, ws, es, v) && Enabled(v, e) && Step(v, e) == Some(v')
    ensures Leads(w, ws + [v'], es + [e], v')
  {
    hide Enabled, Step;
  }

  /** The lines of a text as events. */
  function LineEvents<Id>(fd: int, lines: seq<string>, closes: bool): (es: seq<Event<Id>>)
    ensures |es| == |lines| && forall i :: 0 <= i < |lines| ==> es[i] == Line(fd, lines[i], closes)
  {
    seq(|lines|, i requires 0 <= i < |lines| => Line(fd, lines[i], closes))
  }

  /** What the turn of a descriptor amounts to: a new client, the end of a connection, or the lines of a text. */
  function TurnEvents<Id>(listener: int, fd: int, accepted: Option<(int, string)>, newcomer: Option<Id>,
                          inputs: int -> Reception, closes: int -> bool): seq<Event<Id>> {
    if fd != listener then
      match inputs(fd)
      case Ended => [Hangup(fd, closes(fd))]
      case Received(text) => LineEvents(fd, Lines(text), closes(fd))
    else if accepted.Some? && newcomer.Some? then [Accept(newcomer.value, accepted.value.0, accepted.value.1)]
    else []
  }

  function RoundEvents<Id>(listener: int, handled: seq<int>, accepted: Option<(int, string)>, newcomer: Option<Id>,
                           inputs: int -> Reception, closes: int -> bool): seq<Event<Id>>
    decreases |handled|
  {
    if handled == [] then []
    else
      RoundEvents(listener, handled[..|handled| - 1], accepted, newcomer, inputs, closes)
      + TurnEvents(listener, handled[|handled| - 1], accepted, newcomer, inputs, closes)
  }

  lemma {:induction false} TurnInside<Id>(listener: int, handled: seq<int>, accepted: Option<(int, string)>,
                                          newcomer: Option<Id>, inputs: int -> Reception, closes: int -> bool, k: nat)
    returns (a: nat)
    requires k < |handled|
    ensures var es := RoundEvents(listener, handled, accepted, newcomer, inputs, closes);
            var turn := TurnEvents(listener, handled[k], accepted, newcomer, inputs, closes);
            a + |turn| <= |es| && es[a..a + |turn|] == turn
    decreases |handled|
  {
    hide TurnEvents;
    var n := |handled| - 1;
    var es := RoundEvents(listener, handled[..n], accepted, newcomer, inputs, closes);
    var last := TurnEvents(listener, handled[n], accepted, newcomer, inputs, closes);
    if k < n {
      a := TurnInside(listener, handled[..n], accepted, newcomer, inputs, closes, k);
      var turn := TurnEvents(listener, handled[k], accepted, newcomer, inputs, closes);
      assert (es + last)[a..a + |turn|] == es[a..a + |turn|];
    } else {
      a := |es|;
      assert (es + last)[a..a + |last|] == last;
    }
  }

  /**
   * Whoever got a turn in a round had it: from some event on, the events of the round are the lines that the
   * descriptor sent, in order, or the end of its connection, or the client that was accepted.
   */
  lemma TurnTaken<Id>(listener: int, handled: seq<int>, accepted: Option<(int, string)>, newcomer: Option<Id>,
                      inputs: int -> Reception, closes: int -> bool, k: nat)
    returns (a: nat)
    requires k < |handled|
    ensures var es, fd := RoundEvents(listener, handled, accepted, newcomer, inputs, closes), handled[k];
            if fd == listener then
              accepted.Some? && newcomer.Some? ==>
                a < |es| && es[a] == Accept(newcomer.value, accepted.value.0, accepted.value.1)
            else
              match inputs(fd)
              case Ended => a < |es| && es[a] == Hangup(fd, closes(fd))
              case Received(text) =>
                a + |Lines(text)| <= |es| && forall i :: 0 <= i < |Lines(text)| ==>
                  es[a + i] == Line(fd, Lines(text)[i], closes(fd))
  {
    hide Lines, RoundEvents;
    a := TurnInside(listener, handled, accepted, newcomer, inputs, closes, k);
    var es := RoundEvents(listener, handled, accepted, newcomer, inputs, closes);
    var turn := TurnEvents(listener, handled[k], accepted, newcomer, inputs, closes);
    forall i | 0 <= i < |turn| ensures es[a + i] == turn[i] {
      assert es[a..a + |turn|][i] == es[a + i];
    }
  }

  lemma {:induction false} LinesLead<Id>(w: World<Id>, ws: seq<World<Id>>, es: seq<Event<Id>>, v: World<Id>, fd: int,
                                        lines: seq<string>, closes: bool)
    returns (ws': seq<World<Id>>, es': seq<Event<Id>>)
    requires Leads(w, ws, es, v) && RunLines(v, fd, lines, closes).Some?
    ensures Leads(w, ws', es', RunLines(v, fd, lines, closes).value) && es' == es + LineEvents(fd, lines, closes)
    decreases |lines|
  {
    hide Leads, LineStep, LineEvents;
    if lines == [] {
      assert es + LineEvents(fd, lines, closes) == es;
      return ws, es;
    }
    var v' := LineStep(v, fd, lines[0], closes).value;
    LeadsOn(w, ws, es, v, Line(fd, lines[0], closes), v');
    ws', es' := LinesLead(w, ws + [v'], es + [Line(fd, lines[0], closes)], v', fd, lines[1..], closes);
    LineEventsCons(es, fd, lines, closes);
  }

  lemma LineEventsCons<Id>(es: seq<Event<Id>>, fd: int, lines: seq<string>, closes: bool)
    requires lines != []
    ensures es + [Line(fd, lines[0], closes)] + LineEvents(fd, lines[1..], closes) == es + LineEvents(fd, lines, closes)
  {
  }

  /** What a round may handle: clients, and first of all the listener if it is ready. */
  ghost predicate Orderly<Id>(w: World<Id>, handled: seq<int>, accepted: Option<(int, string)>, newcomer: Option<Id>) {
    && Distinct(handled)
    && (forall fd <- handled :: fd == w.listener || fd in w.clients)
    && (forall k :: 0 < k < |handled| ==> handled[k] != w.listener)
    && (newcomer.Some? ==> newcomer.value !in w.info)
    && (accepted.Some? ==> accepted.value.0 !in w.clients && accepted.value.0 != w.listener)
  }

  /** A round does to the server what some run of events does, so the claims about runs hold for the loop. */
  lemma {:induction false} RoundIsRun<Id>(w: World<Id>, handled: seq<int>, accepted: Option<(int, string)>,
                                          newcomer: Option<Id>,
                                         inputs: int -> Reception, closes: int -> bool)
    returns (ws: seq<World<Id>>, es: seq<Event<Id>>)
    requires Inv(w) && Orderly(w, handled, accepted, newcomer)
    requires Handlers(w, handled, accepted, newcomer, inputs, closes).Some?
    ensures var w' := Handlers(w, handled, accepted, newcomer, inputs, closes).value;
            && Leads(w, ws, es, w') && w'.listener == w.listener && Inv(w')
            && es == RoundEvents(w.listener, handled, accepted, newcomer, inputs, closes)
            && forall fd <- w.clients :: fd !in handled ==> fd in w'.clients
    decreases |handled|
  {
    hide Inv, Leads, Serve, TurnEvents;
    if handled == [] {
      NoEvents(w);
      return [w], [];
    }
    var before, last := handled[..|handled| - 1], handled[|handled| - 1];
    ws, es := RoundIsRun(w, before, accepted, newcomer, inputs, closes);
    var v := Handlers(w, before, accepted, newcomer, inputs, closes).value;
    if last == w.listener {
      assert before == [] && v == w;
      ws, es := AdmitLeads(w, accepted, newcomer);
    } else {
      assert last !in before;
      ServeCloses(v, last, inputs(last), closes(last));
      ws, es := ServeLeads(w, ws, es, v, last, inputs(last), closes(last));
      TurnOfClient(w.listener, last, accepted, newcomer, inputs, closes);
    }
  }

  lemma TurnOfClient<Id>(listener: int, fd: int, accepted: Option<(int, string)>, newcomer: Option<Id>,
                         inputs: int -> Reception, closes: int -> bool)
    requires fd != listener
    ensures TurnEvents(listener, fd, accepted, newcomer, inputs, closes)
         == match inputs(fd)
            case Ended => [Hangup(fd, closes(fd))]
            case Received(text) => LineEvents(fd, Lines(text), closes(fd))
  {
    hide Lines;
  }

  lemma NoEvents<Id>(w: World<Id>)
    ensures Leads(w, [w], [], w)
  {
  }

  lemma AdmitLeads<Id>(w: World<Id>, accepted: Option<(int, string)>, newcomer: Option<Id>)
    returns (ws: seq<World<Id>>, es: seq<Event<Id>>)
    requires Inv(w) && (newcomer.Some? ==> newcomer.value !in w.info)
    requires accepted.Some? ==> accepted.value.0 !in w.clients && accepted.value.0 != w.listener
    ensures Leads(w, ws, es, Admit(w, accepted, newcomer)) && Inv(Admit(w, accepted, newcomer))
    ensures forall inputs, closes :: es == TurnEvents(w.listener, w.listener, accepted, newcomer, inputs, closes)
    ensures forall fd <- w.clients :: fd in Admit(w, accepted, newcomer).clients
  {
    hide Inv, Leads;
    NoEvents(w);
    ws, es := [w], [];
    if accepted.Some? && newcomer.Some? {
      var e := Accept(newcomer.value, accepted.value.0, accepted.value.1);
      var w' := Admit(w, accepted, newcomer);
      AcceptInv(w, newcomer.value, accepted.value.0, accepted.value.1);
      LeadsOn(w, ws, es, w, e, w');
      ws, es := ws + [w'], es + [e];
    }
  }

  lemma ServeLeads<Id>(w: World<Id>, ws: seq<World<Id>>, es: seq<Event<Id>>, v: World<Id>, fd: int, got: Reception,
                       closes: bool)
    returns (ws': seq<World<Id>>, es': seq<Event<Id>>)
    requires Leads(w, ws, es, v) && fd != v.listener && Serve(v, fd, got, closes).Some?
    ensures Leads(w, ws', es', Serve(v, fd, got, closes).value)
    ensures es' == es + match got
                        case Ended => [Hangup(fd, closes)]
                        case Received(text) => LineEvents(fd, Lines(text), closes)
  {
    hide Leads, Lines, RunLines, Close;
    match got
    case Received(text) => ws', es' := LinesLead(w, ws, es, v, fd, Lines(text), closes);
    case Ended =>
      var v' := Serve(v, fd, got, closes).value;
      LeadsOn(w, ws, es, v, Hangup(fd, closes), v');
      ws', es' := ws + [v'], es + [Hangup(fd, closes)];
  }

  lemma LeadsThen<Id>(w: World<Id>, ws: seq<World<Id>>, es: seq<Event<Id>>, v: World<Id>, vs: seq<World<Id>>,
                      fs: seq<Event<Id>>, v': World<Id>)
    requires Leads(w, ws, es, v) && Leads(v, vs, fs, v')
    ensures |vs| >= 1 && Leads(w, ws + vs[1..], es + fs, v')
  {
    hide Enabled, Step;
    var all, events := ws + vs[1..], es + fs;
    assert forall k :: |es| <= k < |all| ==> all[k] == vs[k - |es|];
    forall k | 0 <= k < |events| ensures Enabled(all[k], events[k]) && Step(all[k], events[k]) == Some(all[k + 1]) {
      if k >= |es| {
        assert all[k] == vs[k - |es|] && all[k + 1] == vs[k - |es| + 1] && events[k] == fs[k - |es|];
      }
    }
  }

  /** So a run of the machine goes on with the rounds of the loop, and the claims about runs hold in every state. */
  lemma RunGoesOn<Id>(ws: seq<World<Id>>, es: seq<Event<Id>>, vs: seq<World<Id>>, fs: seq<Event<Id>>, w': World<Id>)
    requires IsRun(ws, es) && Leads(ws[|es|], vs, fs, w')
    ensures IsRun(ws + vs[1..], es + fs) && (ws + vs[1..])[|es + fs|] == w' && Inv(w')
  {
    assert Leads(ws[0], ws, es, ws[|es|]);
    hide Enabled, Step, Init, Inv;
    LeadsThen(ws[0], ws, es, ws[|es|], vs, fs, w');
    var all, events := ws + vs[1..], es + fs;
    assert IsRun(all, events);
    RunInv(all, events, |events|);
  }

  // ---------------------------------------------------------------- in the middle of a round

  /** One round: the vector it starts with, what is ready, what it closes, and what it appends. */
  datatype Turnus = Turnus(fds: seq<int>, ready: set<int>, closing: set<int>, appended: seq<int>)

  /** The listener is first and never closed, and an appended descriptor is new. */
  ghost predicate TurnusOk(t: Turnus, listener: int) {
    && Distinct(t.fds) && t.fds != [] && t.fds[0] == listener && listener !in t.closing
    && forall fd <- t.appended :: fd !in t.fds
  }

  /** The vector that a round leaves. */
  function Left(t: Turnus): seq<int> {
    Kept(t.fds, t.ready, t.closing, |t.fds|) + t.appended
  }

  /** A whole round from `w` to `v`: who got a turn, and the vector that is left, given what was closed. */
  ghost predicate Walked<Id>(w: World<Id>, v: World<Id>, ready: set<int>, accepted: Option<(int, string)>,
                             handled: seq<int>) {
    var t := Turnus(w.fds, ready, w.clients.Keys - v.clients.Keys, Fresh(w.fds, ready, accepted));
    TurnusOk(t, w.listener) && handled == Visited(t.fds, t.ready, t.closing, |t.fds|) && v.fds == Left(t)
  }

  /** What the vector has got at its end when the loop stands before position `p` of the one it started with. */
  function Extra(fds: seq<int>, ready: set<int>, accepted: Option<(int, string)>, p: nat): seq<int> {
    if p > 0 then Fresh(fds, ready, accepted) else []
  }

  /**
   * The loop that started in `w` is in `v`, at index `i`, before position `p` of its first vector. `closing` are
   * the connections that are closed by now.
   */
  ghost predicate Midway<Id>(w: World<Id>, v: World<Id>, ready: set<int>, accepted: Option<(int, string)>,
                             handled: seq<int>, closing: set<int>, i: nat, p: nat) {
    && Inv(v) && v.listener == w.listener && p <= |w.fds|
    && Progress(w.fds, v.fds, ready, closing, Extra(w.fds, ready, accepted, p), i, p)
    && handled == Visited(w.fds, ready, closing, p)
    && closing <= w.clients.Keys
    && v.clients.Keys == (w.clients.Keys - closing) + (set x | x in Extra(w.fds, ready, accepted, p))
    && forall k :: p <= k < |w.fds| ==> w.fds[k] !in closing
  }

  /** The descriptor that `accept` returns is not open. */
  ghost predicate AcceptsNew<Id>(w: World<Id>, ready: set<int>, accepted: Option<(int, string)>) {
    accepted.Some? ==> accepted.value.0 !in w.fds && accepted.value.0 !in ready
  }

  /** The loop stands at `i` and `p`, and `v` is what the handlers called so far made of `w`. */
  ghost predicate InLoop<Id>(w: World<Id>, v: World<Id>, ready: set<int>, accepted: Option<(int, string)>,
                             newcomer: Option<Id>, inputs: int -> Reception, closes: int -> bool,
                             handled: seq<int>, closing: set<int>, i: nat, p: nat) {
    && Inv(w) && AcceptsNew(w, ready, accepted) && Midway(w, v, ready, accepted, handled, closing, i, p)
    && Handlers(w, handled, accepted, newcomer, inputs, closes) == Some(v)
    && (newcomer.Some? ==> handled != [] && newcomer.value !in w.info)
  }

  lemma MidwayStart<Id>(w: World<Id>, ready: set<int>, accepted: Option<(int, string)>)
    requires Inv(w)
    ensures Midway(w, w, ready, accepted, [], {}, 0, 0)
  {
    hide Inv;
    ListenerApart(w);
    assert [] + w.fds[0..] + [] == w.fds;
  }

  /** Only what was there at the start can be ready, and each of it comes once. */
  lemma MidwayAt<Id>(w: World<Id>, v: World<Id>, ready: set<int>, accepted: Option<(int, string)>,
                     handled: seq<int>, closing: set<int>, i: nat, p: nat)
    requires Inv(w) && Midway(w, v, ready, accepted, handled, closing, i, p) && AcceptsNew(w, ready, accepted)
    requires i < |v.fds| && v.fds[i] in ready
    ensures v.listener == w.listener && p < |w.fds| && v.fds[i] == w.fds[p]
    ensures if v.fds[i] == w.listener then p == 0 && handled == [] else p > 0 && v.fds[i] in v.clients
  {
    hide Inv, Kept, Turn, Visited, Shuts;
    ListenerApart(w);
    ListenerApart(v);
    assert v.fds[i] in v.fds;
    NobodyYet(w.fds, ready, closing);
    if p < |w.fds| {
      assert w.fds[p] in w.fds;
    }
  }

  lemma NobodyYet(fds: seq<int>, ready: set<int>, closing: set<int>)
    ensures Visited(fds, ready, closing, 0) == []
  {
  }

  lemma MidwayAdmit<Id>(w: World<Id>, ready: set<int>, accepted: Option<(int, string)>, newcomer: Option<Id>,
                        closing: set<int>, i: nat)
    requires Inv(w) && Midway(w, w, ready, accepted, [], closing, i, 0) && AcceptsNew(w, ready, accepted)
    requires w.listener in ready && newcomer.Some? == accepted.Some? && Inv(Admit(w, accepted, newcomer))
    ensures Midway(w, Admit(w, accepted, newcomer), ready, accepted, [w.listener], closing, i + 1, 1)
  {
    hide Inv, Kept, Turn, Visited, Shuts;
    ListenerApart(w);
    var extra := Fresh(w.fds, ready, accepted);
    var v := Admit(w, accepted, newcomer);
    AppendsAtStart(w.fds, ready, closing, extra, i);
    hide Progress;
    PassedOne(w.fds, v.fds, ready, closing, extra, i, 0);
    NobodyYet(w.fds, ready, closing);
  }

  /** What the handler of the first position appends comes behind the whole vector. */
  lemma AppendsAtStart(fds: seq<int>, ready: set<int>, closing: set<int>, extra: seq<int>, i: nat)
    requires Progress(fds, fds, ready, closing, [], i, 0)
    ensures Progress(fds, fds + extra, ready, closing, extra, i, 0)
  {
    hide Kept, Turn;
    assert Kept(fds, ready, closing, 0) + fds[0..] + [] == Kept(fds, ready, closing, 0) + fds[0..];
  }

  lemma MidwayServe<Id>(w: World<Id>, v: World<Id>, v': World<Id>, ready: set<int>, accepted: Option<(int, string)>,
                        handled: seq<int>, closing: set<int>, i: nat, p: nat)
    returns (closing': set<int>, q: nat)
    requires Inv(w) && Midway(w, v, ready, accepted, handled, closing, i, p) && AcceptsNew(w, ready, accepted)
    requires 0 < p < |w.fds| && w.fds[p] in ready && ClosesAtMost(v, v', w.fds[p]) && Inv(v')
    ensures p < q <= |w.fds| && Midway(w, v', ready, accepted, handled + [w.fds[p]], closing', i + 1, q)
  {
    hide Inv, Kept, Turn, Visited, Shuts, Progress, Without;
    ListenerApart(w);
    ListenerApart(v);
    var fd := w.fds[p];
    assert fd in w.fds;
    var closed := fd !in v'.clients;
    closing' := if closed then closing + {fd} else closing;
    q := Next(w.fds, ready, closing', p);
    HandledOne(w.fds, v.fds, v'.fds, ready, closing, Extra(w.fds, ready, accepted, p), i, p, closed);
    forall k | q <= k < |w.fds| ensures w.fds[k] !in closing' {
      assert w.fds[k] != fd;
    }
  }

  lemma MidwayPass<Id>(w: World<Id>, v: World<Id>, ready: set<int>, accepted: Option<(int, string)>,
                       handled: seq<int>, closing: set<int>, i: nat, p: nat)
    returns (q: nat)
    requires Inv(w) && Midway(w, v, ready, accepted, handled, closing, i, p)
    requires i < |v.fds| && v.fds[i] !in ready
    ensures p <= q <= |w.fds| && Midway(w, v, ready, accepted, handled, closing, i + 1, q)
  {
    hide Inv, Kept, Turn, Visited, Shuts;
    ListenerApart(w);
    q := p;
    if p < |w.fds| {
      var extra := Extra(w.fds, ready, accepted, p);
      PassedOne(w.fds, v.fds, ready, closing, extra, i, p);
      q := p + 1;
      assert p == 0 ==> Fresh(w.fds, ready, accepted) == [];
    }
  }

  /** At the end, the turns, the vector and the connections are those that the closed connections determine. */
  lemma MidwayEnd<Id>(w: World<Id>, v: World<Id>, ready: set<int>, accepted: Option<(int, string)>,
                      newcomer: Option<Id>, handled: seq<int>, closing: set<int>, i: nat, p: nat)
    requires Inv(w) && Midway(w, v, ready, accepted, handled, closing, i, p) && AcceptsNew(w, ready, accepted)
    requires i >= |v.fds| && (newcomer.Some? ==> newcomer.value !in w.info)
    ensures Walked(w, v, ready, accepted, handled) && Orderly(w, handled, accepted, newcomer)
  {
    hide Inv, Kept, Turn, Visited, Shuts;
    ListenerApart(w);
    assert p == |w.fds|;
    HandledOnce(w.fds, ready, closing, p);
    HandledAre(w, ready, closing, handled);
    forall x | x in w.clients ensures x in v.clients <==> x !in closing {
      assert x in w.fds;
    }
    AcceptApart(w, ready, accepted);
    assert w.clients.Keys - v.clients.Keys == closing;
  }

  lemma LoopStarts<Id>(w: World<Id>, ready: set<int>, accepted: Option<(int, string)>, inputs: int -> Reception,
                       closes: int -> bool)
    requires Inv(w) && AcceptsNew(w, ready, accepted)
    ensures InLoop(w, w, ready, accepted, None, inputs, closes, [], {}, 0, 0)
  {
    hide Inv, Midway, AcceptsNew;
    MidwayStart(w, ready, accepted);
  }

  lemma LoopEnds<Id>(w: World<Id>, v: World<Id>, ready: set<int>, accepted: Option<(int, string)>, newcomer: Option<Id>,
                     inputs: int -> Reception, closes: int -> bool, handled: seq<int>, closing: set<int>,
                     i: nat, p: nat)
    requires InLoop(w, v, ready, accepted, newcomer, inputs, closes, handled, closing, i, p) && i >= |v.fds|
    ensures Handlers(w, handled, accepted, newcomer, inputs, closes) == Some(v)
    ensures Walked(w, v, ready, accepted, handled) && Orderly(w, handled, accepted, newcomer)
  {
    hide Inv, Midway, AcceptsNew, Handlers, Walked, Orderly;
    MidwayEnd(w, v, ready, accepted, newcomer, handled, closing, i, p);
  }

  lemma AcceptApart<Id>(w: World<Id>, ready: set<int>, accepted: Option<(int, string)>)
    requires Inv(w) && AcceptsNew(w, ready, accepted)
    ensures accepted.Some? ==> accepted.value.0 !in w.clients && accepted.value.0 != w.listener
  {
    hide Inv, Distinct;
    ListenerApart(w);
  }

  lemma HandledAre<Id>(w: World<Id>, ready: set<int>, closing: set<int>, handled: seq<int>)
    requires PollSet(w.listener, w.clients.Keys, w.fds) && handled == Visited(w.fds, ready, closing, |w.fds|)
    ensures forall fd <- handled :: fd == w.listener || fd in w.clients
    ensures forall k :: 0 < k < |handled| ==> handled[k] != w.listener
  {
    hide Visited;
    VisitedIs(w.fds, ready, closing, |w.fds|);
    HandledOnce(w.fds, ready, closing, |w.fds|);
    ListenerFirst(w.fds, ready, closing, |w.fds|);
    forall k | 0 < k < |handled| ensures handled[k] != w.listener {
      assert handled[k] in handled;
    }
  }

  lemma {:induction false} ListenerFirst(fds: seq<int>, ready: set<int>, closing: set<int>, p: nat)
    requires p <= |fds| && p > 0
    ensures fds[0] in ready ==>
              Visited(fds, ready, closing, p) != [] && Visited(fds, ready, closing, p)[0] == fds[0]
  {
    if p > 1 {
      ListenerFirst(fds, ready, closing, p - 1);
    }
  }

  // ---------------------------------------------------------------- waiting

  ghost predicate Rounds(ts: seq<Turnus>, listener: int) {
    && (forall k :: 0 <= k < |ts| ==> TurnusOk(ts[k], listener))
    && forall k :: 0 <= k < |ts| - 1 ==> ts[k + 1].fds == Left(ts[k])
  }

  /** The descriptor is ready and gets no turn. */
  predicate Misses(t: Turnus, fd: int) {
    fd in t.ready && fd !in Visited(t.fds, t.ready, t.closing, |t.fds|)
  }

  function Missed(ts: seq<Turnus>, fd: int): nat {
    if ts == [] then 0 else (if Misses(ts[0], fd) then 1 else 0) + Missed(ts[1..], fd)
  }

  /** A round moves a descriptor that stays towards the front or leaves it, and each missed turn moves it. */
  lemma Advances(t: Turnus, listener: int, fd: int, k: nat) returns (at: nat)
    requires TurnusOk(t, listener) && k < |t.fds| && t.fds[k] == fd && fd in Left(t) && fd != listener
    ensures 0 < at <= k && at < |Left(t)| && Left(t)[at] == fd
    ensures Misses(t, fd) ==> 0 < k && at < k
  {
    hide Visited, Shuts, Turn;
    var kept := Kept(t.fds, t.ready, t.closing, |t.fds|);
    FirstStays(t, listener);
    if fd in t.ready {
      at := SkippedStays(t.fds, t.ready, t.closing, k);
    }
    if !Misses(t, fd) {
      at := |Kept(t.fds, t.ready, t.closing, k)|;
      StaysAt(t, listener, fd, k);
    }
    assert kept[at] == fd && kept[0] == listener;
  }

  lemma FirstStays(t: Turnus, listener: int)
    requires TurnusOk(t, listener)
    ensures var kept := Kept(t.fds, t.ready, t.closing, |t.fds|); kept != [] && kept[0] == listener
  {
  }

  /** A descriptor that stays was not closed, so it is kept behind what was kept before it. */
  lemma StaysAt(t: Turnus, listener: int, fd: int, k: nat)
    requires TurnusOk(t, listener) && k < |t.fds| && t.fds[k] == fd && fd in Left(t)
    ensures var kept, at := Kept(t.fds, t.ready, t.closing, |t.fds|), |Kept(t.fds, t.ready, t.closing, k)|;
            at <= k && at < |kept| && kept[at] == fd
  {
    hide Turn;
    KeptIs(t.fds, t.ready, t.closing, |t.fds|);
    assert fd in Kept(t.fds, t.ready, t.closing, |t.fds|);
    assert forall j :: 0 <= j < |t.fds| && t.fds[j] == fd ==> j == k;
    assert !Shuts(t.fds, t.ready, t.closing, k);
    assert Kept(t.fds, t.ready, t.closing, k + 1) == Kept(t.fds, t.ready, t.closing, k) + [fd];
    KeptGrows(t.fds, t.ready, t.closing, k + 1, |t.fds|);
  }

  /**
   * Nobody waits for ever: over any number of rounds, a connection that stays misses its turn fewer times
   * than there are connections before it in the vector when it is first looked at.
   */
  lemma {:induction false} WaitBound(ts: seq<Turnus>, listener: int, fd: int, k: nat)
    requires Rounds(ts, listener) && ts != [] && k < |ts[0].fds| && ts[0].fds[k] == fd && fd != listener
    requires forall j :: 0 <= j < |ts| ==> fd in Left(ts[j])
    ensures Missed(ts, fd) < k
    decreases |ts|
  {
    hide Misses, Left, TurnusOk;
    assert TurnusOk(ts[0], listener);
    var at := Advances(ts[0], listener, fd, k);
    if |ts| > 1 {
      assert ts[1].fds == Left(ts[0]);
      RoundsRest(ts, listener);
      WaitBound(ts[1..], listener, fd, at);
    } else {
      assert Missed(ts[1..], fd) == 0;
    }
  }

  // ---------------------------------------------------------------- the rounds of the server

  /** What the kernel does in a round: which descriptors are ready, and what `accept`, `recv` and `close` answer. */
  datatype Turnout = Turnout(
    ready: set<int>,
    accepted: Option<(int, string)>,
    inputs: int -> Reception,
    closes: int -> bool)

  /** A new descriptor is neither in the vector nor ready. */
  ghost predicate Fair(kernel: (nat, seq<int>) -> Turnout) {
    forall k: nat, fds: seq<int> ::
      var t := kernel(k, fds);
      t.accepted.Some? ==> t.accepted.value.0 !in fds && t.accepted.value.0 !in t.ready
  }

  /** The states between the rounds of the loop, and whom each round handled. */
  ghost predicate Loops<Id>(ws: seq<World<Id>>, kernel: (nat, seq<int>) -> Turnout, turns: seq<seq<int>>) {
    && |ws| == |turns| + 1
    && forall k :: 0 <= k < |turns| ==>
         Walked(ws[k], ws[k + 1], kernel(k, ws[k].fds).ready, kernel(k, ws[k].fds).accepted, turns[k])
  }

  /** The events of all rounds. */
  function LoopEvents<Id>(listener: int, ws: seq<World<Id>>, kernel: (nat, seq<int>) -> Turnout, turns: seq<seq<int>>,
                          newcomers: seq<Option<Id>>): seq<Event<Id>>
    requires |ws| == |turns| + 1 && |newcomers| == |turns|
    decreases |turns|
  {
    if turns == [] then []
    else
      var k := |turns| - 1;
      var t := kernel(k, ws[k].fds);
      LoopEvents(listener, ws[..k + 1], kernel, turns[..k], newcomers[..k])
      + RoundEvents(listener, turns[k], t.accepted, newcomers[k], t.inputs, t.closes)
  }

  lemma LoopEventsNone<Id>(listener: int, w: World<Id>, kernel: (nat, seq<int>) -> Turnout)
    ensures LoopEvents(listener, [w], kernel, [], []) == []
  {
  }

  lemma LoopEventsOn<Id>(listener: int, ws: seq<World<Id>>, kernel: (nat, seq<int>) -> Turnout, turns: seq<seq<int>>,
                         newcomers: seq<Option<Id>>, w': World<Id>, handled: seq<int>, newcomer: Option<Id>)
    requires |ws| == |turns| + 1 && |newcomers| == |turns|
    ensures var t := kernel(|turns|, ws[|turns|].fds);
            LoopEvents(listener, ws + [w'], kernel, turns + [handled], newcomers + [newcomer])
            == LoopEvents(listener, ws, kernel, turns, newcomers)
               + RoundEvents(listener, handled, t.accepted, newcomer, t.inputs, t.closes)
  {
    hide RoundEvents;
    var k := |turns|;
    assert (ws + [w'])[..k + 1] == ws && (turns + [handled])[..k] == turns;
    assert (newcomers + [newcomer])[..k] == newcomers;
  }

  lemma LoopsNone<Id>(w: World<Id>, kernel: (nat, seq<int>) -> Turnout)
    ensures Loops([w], kernel, [])
  {
  }

  lemma LoopsOn<Id>(ws: seq<World<Id>>, kernel: (nat, seq<int>) -> Turnout, turns: seq<seq<int>>, w': World<Id>,
                    handled: seq<int>)
    requires Loops(ws, kernel, turns)
    requires var k, w := |turns|, ws[|turns|];
             Walked(w, w', kernel(k, w.fds).ready, kernel(k, w.fds).accepted, handled)
    ensures Loops(ws + [w'], kernel, turns + [handled])
  {
    hide Walked;
  }

  /** How often a descriptor was ready and not handled, from round `j` on. */
  function MissedFrom<Id(==)>(ws: seq<World<Id>>, kernel: (nat, seq<int>) -> Turnout, turns: seq<seq<int>>, fd: int,
                              j: nat): nat
    requires |ws| == |turns| + 1
    decreases |turns| - j
  {
    if j >= |turns| then 0
    else
      (if fd in kernel(j, ws[j].fds).ready && fd !in turns[j] then 1 else 0) + MissedFrom(ws, kernel, turns, fd, j + 1)
  }

  ghost function TurnusOf<Id>(w: World<Id>, v: World<Id>, t: Turnout): Turnus {
    Turnus(w.fds, t.ready, w.clients.Keys - v.clients.Keys, Fresh(w.fds, t.ready, t.accepted))
  }

  ghost function Turnuses<Id>(ws: seq<World<Id>>, kernel: (nat, seq<int>) -> Turnout): (ts: seq<Turnus>)
    requires |ws| >= 1
    ensures |ts| == |ws| - 1
    ensures forall k :: 0 <= k < |ts| ==> ts[k] == TurnusOf(ws[k], ws[k + 1], kernel(k, ws[k].fds))
  {
    seq(|ws| - 1, k requires 0 <= k < |ws| - 1 => TurnusOf(ws[k], ws[k + 1], kernel(k, ws[k].fds)))
  }

  lemma WalkedTurnus<Id>(w: World<Id>, v: World<Id>, t: Turnout, handled: seq<int>, fd: int)
    requires Walked(w, v, t.ready, t.accepted, handled)
    ensures TurnusOk(TurnusOf(w, v, t), w.listener) && v.fds == Left(TurnusOf(w, v, t))
    ensures v.fds != [] && v.fds[0] == w.listener
    ensures Misses(TurnusOf(w, v, t), fd) <==> fd in t.ready && fd !in handled
  {
    hide Visited;
    FirstStays(TurnusOf(w, v, t), w.listener);
  }

  /** The rounds of the loop follow each other as the bound wants it. */
  lemma LoopsAreRounds<Id>(ws: seq<World<Id>>, kernel: (nat, seq<int>) -> Turnout, turns: seq<seq<int>>)
    requires Loops(ws, kernel, turns)
    ensures Rounds(Turnuses(ws, kernel), ws[0].listener)
  {
    hide Walked, Left;
    var ts := Turnuses(ws, kernel);
    var k := 0;
    while k < |ts|
      invariant k <= |ts| && (k < |ts| ==> ws[k].listener == ws[0].listener)
      invariant forall j :: 0 <= j < k ==> TurnusOk(ts[j], ws[0].listener) && ws[j + 1].fds == Left(ts[j])
    {
      WalkedTurnus(ws[k], ws[k + 1], kernel(k, ws[k].fds), turns[k], 0);
      if k + 1 < |ts| {
        WalkedTurnus(ws[k + 1], ws[k + 2], kernel(k + 1, ws[k + 1].fds), turns[k + 1], 0);
      }
      k := k + 1;
    }
  }

  lemma {:induction false} MissedIsMissed<Id>(ws: seq<World<Id>>, kernel: (nat, seq<int>) -> Turnout,
                                              turns: seq<seq<int>>, fd: int, j: nat)
    requires Loops(ws, kernel, turns) && j <= |turns|
    ensures MissedFrom(ws, kernel, turns, fd, j) == Missed(Turnuses(ws, kernel)[j..], fd)
    decreases |turns| - j
  {
    hide Walked, Misses;
    if j < |turns| {
      var ts := Turnuses(ws, kernel);
      WalkedTurnus(ws[j], ws[j + 1], kernel(j, ws[j].fds), turns[j], fd);
      MissedIsMissed(ws, kernel, turns, fd, j + 1);
      assert ts[j..][0] == ts[j] && ts[j..][1..] == ts[j + 1..];
    }
  }

  /** On the server: over any number of rounds, a connection misses fewer turns than its position in the vector. */
  lemma NobodyWaitsForEver<Id>(ws: seq<World<Id>>, kernel: (nat, seq<int>) -> Turnout, turns: seq<seq<int>>, fd: int,
                               at: nat)
    requires Loops(ws, kernel, turns) && turns != []
    requires at < |ws[0].fds| && ws[0].fds[at] == fd && fd != ws[0].listener
    requires forall j :: 0 < j <= |turns| ==> fd in ws[j].fds
    ensures MissedFrom(ws, kernel, turns, fd, 0) < at
  {
    hide Walked, Rounds, Left, Missed;
    var ts := Turnuses(ws, kernel);
    LoopsAreRounds(ws, kernel, turns);
    MissedIsMissed(ws, kernel, turns, fd, 0);
    assert ts[0..] == ts;
    forall j | 0 <= j < |ts| ensures fd in Left(ts[j]) {
      WalkedTurnus(ws[j], ws[j + 1], kernel(j, ws[j].fds), turns[j], fd);
    }
    assert ts[0].fds == ws[0].fds;
    WaitBound(ts, ws[0].listener, fd, at);
  }

  lemma RoundsRest(ts: seq<Turnus>, listener: int)
    requires Rounds(ts, listener) && ts != []
    ensures Rounds(ts[1..], listener)
  {
    hide TurnusOk, Left;
  }
}
