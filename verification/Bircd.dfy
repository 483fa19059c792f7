/** The `select` relay: one round of building the sets, selecting, and serving what is ready. */
module Bircd {

  datatype Kind = Free | Serv | Client

  datatype Handler = NoHandler | SrvAccept | ClientRead | ClientWrite

  /** A slot of the descriptor table; `pending` is the length of the text in its write buffer. */
  datatype Fd = Fd(kind: Kind, read: Handler, write: Handler, pending: nat)

  /** A handler call made by a pass. */
  datatype Call = Read(fd: int) | Write(fd: int)

  /** How a pass ends: served to the end, `accept` failed and the process left, or a null handler was called. */
  datatype Outcome = Completed | Exited | NullCall(fd: int)

  /** `clean_fd` and `srv_accept` leave a slot in one of these three shapes. */
  predicate SlotOk(s: Fd) {
    match s.kind
    case Free => s.read == NoHandler && s.write == NoHandler
    case Serv => s.read == SrvAccept && s.write == NoHandler
    case Client => s.read == ClientRead && s.write == ClientWrite
  }

  function CallsAt(i: int, rd: set<int>, wr: set<int>): seq<Call> {
    (if i in rd then [Read(i)] else []) + (if i in wr then [Write(i)] else [])
  }

  /** The calls due below `n`: the read and then the write handler of every ready descriptor, in order. */
  function CallsBelow(n: nat, rd: set<int>, wr: set<int>): seq<Call> {
    if n == 0 then [] else CallsBelow(n - 1, rd, wr) + CallsAt(n - 1, rd, wr)
  }

  /** The descriptors that get the text of `from`: every client slot below `n` but its own. */
  function Audience(fds: seq<Fd>, n: nat, from: int): seq<int>
    requires n <= |fds|
  {
    if n == 0 then []
    else Audience(fds, n - 1, from) + if fds[n - 1].kind.Client? && n - 1 != from then [n - 1] else []
  }

  /** No write handler of a ready descriptor can be null when its turn comes. */
  ghost predicate WritesSafe(fds: seq<Fd>, rd: set<int>, wr: set<int>, recv: int -> int) {
    forall i :: i in wr && 0 <= i < |fds| ==> fds[i].kind.Client? && (i in rd ==> recv(i) > 0)
  }

  function Below(s: set<int>, n: int): set<int> {
    set i | i in s && i < n
  }

  /** The call is due: its descriptor is in the set of its kind. */
  predicate Due(c: Call, rd: set<int>, wr: set<int>) {
    match c
    case Read(fd) => fd in rd
    case Write(fd) => fd in wr
  }

  /** Every call that is due appears exactly once, every other call never. */
  lemma {:induction false} CallsOnce(n: nat, rd: set<int>, wr: set<int>, c: Call)
    requires forall i :: i in rd + wr ==> 0 <= i
    ensures multiset(CallsBelow(n, rd, wr))[c] == if c.fd < n && Due(c, rd, wr) then 1 else 0
  {
    hide CallsAt, CallsBelow;
    if n == 0 {
      assert CallsBelow(0, rd, wr) == [] by {
        NoCalls(rd, wr);
      }
      assert Due(c, rd, wr) ==> c.fd in rd + wr;
    } else {
      CallsOnce(n - 1, rd, wr, c);
      CallsAtOnce(n - 1, rd, wr, c);
      NextCalls(n, rd, wr, c);
    }
  }

  lemma NoCalls(rd: set<int>, wr: set<int>)
    ensures CallsBelow(0, rd, wr) == []
  {
  }

  lemma NextCalls(n: nat, rd: set<int>, wr: set<int>, c: Call)
    requires n > 0
    ensures multiset(CallsBelow(n, rd, wr))[c] == multiset(CallsBelow(n - 1, rd, wr))[c]
              + multiset(CallsAt(n - 1, rd, wr))[c]
  {
    hide CallsAt;
    assert CallsBelow(n, rd, wr) == CallsBelow(n - 1, rd, wr) + CallsAt(n - 1, rd, wr);
  }

  lemma CallsAtOnce(i: int, rd: set<int>, wr: set<int>, c: Call)
    ensures multiset(CallsAt(i, rd, wr))[c] == if c.fd == i && Due(c, rd, wr) then 1 else 0
  {
    match (i in rd, i in wr)
    case (true, true) => assert CallsAt(i, rd, wr) == [Read(i), Write(i)];
    case (true, false) => assert CallsAt(i, rd, wr) == [Read(i)];
    case (false, true) => assert CallsAt(i, rd, wr) == [Write(i)];
    case (false, false) => assert CallsAt(i, rd, wr) == [];
  }

  /** Once as many ready descriptors were visited as `select` counted, none is left. */
  lemma NothingLeft(n: nat, i: nat, rd: set<int>, wr: set<int>)
    requires i <= n
    requires |Below(rd + wr, i)| >= |rd| + |wr|
    ensures forall j :: j in rd + wr ==> j < i
    ensures CallsBelow(n, rd, wr) == CallsBelow(i, rd, wr)
  {
    var seen := Below(rd + wr, i);
    assert |rd + wr| == |rd| + |wr| - |rd * wr|;
    assert |rd + wr - seen| == |rd + wr| - |seen|;
    assert rd + wr <= seen;
    NoCallsAbove(n, i, rd, wr);
  }

  lemma {:induction false} NoCallsAbove(n: nat, i: nat, rd: set<int>, wr: set<int>)
    requires i <= n
    requires forall j :: j in rd + wr ==> j < i
    ensures CallsBelow(n, rd, wr) == CallsBelow(i, rd, wr)
  {
    if i < n {
      NoCallsAbove(n - 1, i, rd, wr);
      assert n - 1 !in rd + wr;
      assert CallsAt(n - 1, rd, wr) == [];
    }
  }

  /** The calls go up by descriptor, the read call of one before its write call. */
  lemma {:induction false} CallsInOrder(n: nat, rd: set<int>, wr: set<int>, i: nat, j: nat)
    requires i < j < |CallsBelow(n, rd, wr)|
    ensures var a, b := CallsBelow(n, rd, wr)[i], CallsBelow(n, rd, wr)[j];
            b.fd < n && (a.fd < b.fd || (a.fd == b.fd && a.Read? && b.Write?))
  {
    var before := CallsBelow(n - 1, rd, wr);
    if j < |before| {
      CallsInOrder(n - 1, rd, wr, i, j);
    } else if i < |before| {
      CallsInside(n - 1, rd, wr, i);
    }
  }

  lemma {:induction false} CallsInside(n: nat, rd: set<int>, wr: set<int>, i: nat)
    requires i < |CallsBelow(n, rd, wr)|
    ensures CallsBelow(n, rd, wr)[i].fd < n
  {
    if i < |CallsBelow(n - 1, rd, wr)| {
      CallsInside(n - 1, rd, wr, i);
    }
  }

  lemma BelowStep(s: set<int>, i: int)
    ensures |Below(s, i + 1)| == |Below(s, i)| + if i in s then 1 else 0
  {
    assert Below(s, i + 1) == Below(s, i) + if i in s then {i} else {};
  }

  // ---------------------------------------------------------------- what a pass delivers

  /** The client of slot `j` is found gone before slot `i` is served. */
  predicate HungUp(slots: seq<Fd>, rd: set<int>, recv: int -> int, j: int, i: int) {
    0 <= j < i && j < |slots| && j in rd && slots[j].kind.Client? && recv(j) <= 0
  }

  /** Slot `i` is a client that has sent a text. */
  predicate Speaks(slots: seq<Fd>, rd: set<int>, recv: int -> int, i: int) {
    0 <= i < |slots| && i in rd && slots[i].kind.Client? && recv(i) > 0
  }

  /** Slot `to` is another client, not found gone before the turn of `from`. */
  predicate Awaits(slots: seq<Fd>, rd: set<int>, recv: int -> int, to: int, from: int) {
    0 <= to < |slots| && to != from && slots[to].kind.Client? && !HungUp(slots, rd, recv, to, from)
  }

  /** A listener is ready before slot `i`, so a new client may have come in. */
  ghost predicate MayAccept(slots: seq<Fd>, rd: set<int>, i: int) {
    exists s :: s in rd && 0 <= s < i && s < |slots| && slots[s].kind.Serv?
  }

  /** Letters (receiver, sender) are ordered by sender and then by receiver, so none comes twice. */
  ghost predicate InOrder(letters: seq<(int, int)>) {
    forall i, j :: 0 <= i < j < |letters| ==>
      letters[i].1 < letters[j].1 || (letters[i].1 == letters[j].1 && letters[i].0 < letters[j].0)
  }

  /**
   * What a pass has sent when it stands before slot `n`: the text of every client that spoke went to every other
   * client that was not found gone before, once each and in order, and to nobody else but a newcomer.
   */
  ghost predicate Delivered(slots: seq<Fd>, rd: set<int>, recv: int -> int, n: int, letters: seq<(int, int)>) {
    && InOrder(letters)
    && (forall l <- letters :: l.1 < n && Speaks(slots, rd, recv, l.1) && 0 <= l.0 < |slots| && l.0 != l.1)
    && (forall l <- letters ::
          Awaits(slots, rd, recv, l.0, l.1) || MayAccept(slots, rd, l.1))
    && forall to, from ::
         from < n && Speaks(slots, rd, recv, from) && Awaits(slots, rd, recv, to, from) ==> (to, from) in letters
  }

  /** The table when the pass stands before slot `i`, next to the one it started with. */
  ghost predicate TableAt(slots: seq<Fd>, fds: seq<Fd>, rd: set<int>, recv: int -> int, i: int) {
    && |fds| == |slots|
    && (forall j :: 0 <= j < |slots| && slots[j].kind.Serv? ==> fds[j].kind.Serv?)
    && (forall j :: 0 <= j < |slots| && slots[j].kind.Client? && !HungUp(slots, rd, recv, j, i) ==> fds[j].kind.Client?)
    && (forall j :: 0 <= j < |slots| && fds[j].kind.Client? ==>
          (slots[j].kind.Client? && !HungUp(slots, rd, recv, j, i)) || MayAccept(slots, rd, i))
  }

  /** A client that spoke reaches everyone it should. */
  lemma DeliverStep(slots: seq<Fd>, fds: seq<Fd>, rd: set<int>, recv: int -> int, i: int, letters: seq<(int, int)>)
    requires TableAt(slots, fds, rd, recv, i) && Delivered(slots, rd, recv, i, letters) && Speaks(slots, rd, recv, i)
    ensures Delivered(slots, rd, recv, i + 1, letters + Letters(Audience(fds, |fds|, i), i))
  {
    hide HungUp, Speaks, MayAccept, Audience, InOrder;
    var to := Audience(fds, |fds|, i);
    AudienceIs(fds, |fds|, i);
    var more := Letters(to, i);
    OrderKept(letters, to, i);
    forall l | l in more ensures l.1 == i && l.0 in to {
      var k :| 0 <= k < |more| && more[k] == l;
      assert more[k] == (to[k], i);
    }
    forall k | 0 <= k < |to| ensures (to[k], i) in more {
      assert more[k] == (to[k], i);
    }
    SpeakerInRange(slots, rd, recv, i);
  }

  lemma SpeakerInRange(slots: seq<Fd>, rd: set<int>, recv: int -> int, i: int)
    requires Speaks(slots, rd, recv, i)
    ensures 0 <= i < |slots|
  {
  }

  lemma OrderKept(letters: seq<(int, int)>, to: seq<int>, from: int)
    requires InOrder(letters) && (forall l <- letters :: l.1 < from) && Ascending(to)
    ensures InOrder(letters + Letters(to, from))
  {
    var all := letters + Letters(to, from);
    forall i, j | 0 <= i < j < |all|
      ensures all[i].1 < all[j].1 || (all[i].1 == all[j].1 && all[i].0 < all[j].0)
    {
      assert i < |letters| ==> all[i] in letters;
    }
  }

  lemma DeliverNone(slots: seq<Fd>, rd: set<int>, recv: int -> int, i: int, letters: seq<(int, int)>)
    requires Delivered(slots, rd, recv, i, letters) && !Speaks(slots, rd, recv, i)
    ensures Delivered(slots, rd, recv, i + 1, letters)
  {
    hide HungUp, Speaks, MayAccept, InOrder;
  }

  /** One ready descriptor is read: the table and what was sent move on together. */
  lemma ReadStep(slots: seq<Fd>, before: seq<Fd>, after: seq<Fd>, rd: set<int>, recv: int -> int, i: int,
                 letters: seq<(int, int)>, more: seq<(int, int)>)
    requires TableAt(slots, before, rd, recv, i) && Delivered(slots, rd, recv, i, letters)
    requires ReadChanges(before, after, i, recv(i)) && i in rd && before[i] == slots[i]
    requires more == if before[i].kind.Client? && recv(i) > 0 then Letters(Audience(before, |before|, i), i) else []
    ensures TableAt(slots, after, rd, recv, i + 1) && Delivered(slots, rd, recv, i + 1, letters + more)
  {
    hide Delivered, Audience, MayAccept;
    TableStep(slots, before, after, rd, recv, i);
    if Speaks(slots, rd, recv, i) {
      DeliverStep(slots, before, rd, recv, i, letters);
    } else {
      DeliverNone(slots, rd, recv, i, letters);
      assert letters + more == letters;
    }
  }

  /** When nothing from slot `i` on is ready, the rest of the pass delivers nothing. */
  lemma DeliverRest(slots: seq<Fd>, rd: set<int>, recv: int -> int, i: int, n: int, letters: seq<(int, int)>)
    requires Delivered(slots, rd, recv, i, letters) && i <= n && forall j :: i <= j < n ==> j !in rd
    ensures Delivered(slots, rd, recv, n, letters)
  {
    hide HungUp, MayAccept, InOrder;
  }

  lemma TableRest(slots: seq<Fd>, fds: seq<Fd>, rd: set<int>, recv: int -> int, i: int, n: int)
    requires TableAt(slots, fds, rd, recv, i) && i <= n && forall j :: i <= j < n ==> j !in rd
    ensures TableAt(slots, fds, rd, recv, n)
  {
    assert MayAccept(slots, rd, i) ==> MayAccept(slots, rd, n);
  }

  /** After a completed pass, the clients are those that were not found gone, and at most a newcomer to a free slot. */
  lemma ClientsLeft(slots: seq<Fd>, fds: seq<Fd>, rd: set<int>, recv: int -> int, j: nat)
    requires TableAt(slots, fds, rd, recv, |slots|) && j < |slots|
    ensures slots[j].kind.Client? && !(j in rd && recv(j) <= 0) ==> fds[j].kind.Client?
    ensures (forall s <- rd :: 0 <= s < |slots| ==> !slots[s].kind.Serv?) ==>
              (fds[j].kind.Client? <==> slots[j].kind.Client? && !(j in rd && recv(j) <= 0))
    ensures slots[j].kind.Serv? ==> fds[j].kind.Serv?
  {
  }

  /** A slot that is not ready leaves the table alone. */
  lemma TableIdle(slots: seq<Fd>, fds: seq<Fd>, rd: set<int>, recv: int -> int, i: int)
    requires TableAt(slots, fds, rd, recv, i) && i !in rd
    ensures TableAt(slots, fds, rd, recv, i + 1)
  {
  }

  /** What a read handler may do to the table. */
  ghost predicate ReadChanges(before: seq<Fd>, after: seq<Fd>, i: int, got: int) {
    && 0 <= i < |before| == |after|
    && after[i].kind == (if before[i].kind.Client? && got <= 0 then Free else before[i].kind)
    && forall j :: 0 <= j < |before| && j != i ==>
         || after[j].kind == before[j].kind
         || (before[i].kind.Serv? && before[j].kind.Free? && after[j].kind.Client?)
  }

  lemma ReadKind(before: seq<Fd>, after: seq<Fd>, i: int, got: int)
    requires ReadChanges(before, after, i, got)
    ensures 0 <= i < |before| == |after|
    ensures after[i].kind == if before[i].kind.Client? && got <= 0 then Free else before[i].kind
  {
  }

  lemma TableStep(slots: seq<Fd>, before: seq<Fd>, after: seq<Fd>, rd: set<int>, recv: int -> int, i: int)
    requires TableAt(slots, before, rd, recv, i) && ReadChanges(before, after, i, recv(i)) && i in rd
    requires before[i] == slots[i]
    ensures TableAt(slots, after, rd, recv, i + 1)
  {
    assert before[i].kind.Serv? ==> MayAccept(slots, rd, i + 1);
    assert MayAccept(slots, rd, i) ==> MayAccept(slots, rd, i + 1);
  }

  class Env {
    const maxfd: nat
    const fds: array<Fd>
    var max: int
    var r: int
    var fdRead: set<int>
    var fdWrite: set<int>
    ghost var calls: seq<Call>
    ghost var sent: seq<(int, int)>  // (receiver, sender)

    ghost predicate Valid()
      reads this, fds
    {
      fds.Length == maxfd && forall i :: 0 <= i < maxfd ==> SlotOk(fds[i])
    }

    /** `init_env`: every slot starts clean; what the write buffers hold is arbitrary. */
    constructor (maxfd: nat, garbage: nat)
      ensures Valid() && fresh(fds) && this.maxfd == maxfd && calls == [] && sent == []
      ensures forall i :: 0 <= i < maxfd ==> fds[i].kind.Free?
    {
      this.maxfd := maxfd;
      fds := new Fd[maxfd](_ => Fd(Free, NoHandler, NoHandler, garbage));
      max, r, fdRead, fdWrite, calls, sent := 0, 0, {}, {}, [], [];
    }

    /** `clean_fd` */
    method CleanFd(i: int)
      requires fds.Length == maxfd && 0 <= i < maxfd
      modifies fds
      ensures fds[..] == old(fds[..])[i := Fd(Free, NoHandler, NoHandler, old(fds[i].pending))]
    {
      fds[i] := fds[i].(kind := Free);
      fds[i] := fds[i].(read := NoHandler);
      fds[i] := fds[i].(write := NoHandler);
    }

    /** `srv_create`: the listening descriptor gets a read handler and no write handler. */
    method SrvCreate(s: int)
      requires Valid() && 0 <= s < maxfd && fds[s].kind.Free?
      modifies fds
      ensures Valid() && fds[s].kind.Serv?
      ensures forall i :: 0 <= i < maxfd && i != s ==> fds[i] == old(fds[i])
    {
      fds[s] := fds[s].(kind := Serv, read := SrvAccept);
    }

    /** `init_fd` */
    method InitFd()
      requires Valid()
      modifies this`max, this`fdRead, this`fdWrite
      ensures fdRead == set i | 0 <= i < maxfd && !fds[i].kind.Free?
      ensures fdWrite == set i | 0 <= i < maxfd && !fds[i].kind.Free? && fds[i].pending > 0
      ensures forall i :: i in fdRead ==> i <= max
      ensures max in fdRead || (fdRead == {} && max == 0)
    {
      var i := 0;
      max := 0;
      fdRead, fdWrite := {}, {};
      while i < maxfd
        invariant 0 <= i <= maxfd && fds.Length == maxfd
        invariant fdRead == set j | 0 <= j < i && !fds[j].kind.Free?
        invariant fdWrite == set j | 0 <= j < i && !fds[j].kind.Free? && fds[j].pending > 0
        invariant forall j :: j in fdRead ==> j <= max
        invariant max in fdRead || (fdRead == {} && max == 0)
      {
        if fds[i].kind != Free {
          fdRead := fdRead + {i};
          if fds[i].pending > 0 {
            fdWrite := fdWrite + {i};
          }
          max := if max > i then max else i;
        }
        i := i + 1;
      }
    }

    /** `do_select`: the kernel keeps a part of each set and reports how many bits it kept, or fails with -1. */
    method DoSelect(rd: set<int>, wr: set<int>, ok: bool)
      requires rd <= fdRead && wr <= fdWrite
      modifies this`r, this`fdRead, this`fdWrite
      ensures ok ==> fdRead == rd && fdWrite == wr && r == |rd| + |wr|
      ensures !ok ==> r == -1 && fdRead == old(fdRead) && fdWrite == old(fdWrite)
    {
      if ok {
        fdRead, fdWrite, r := rd, wr, |rd| + |wr|;
      } else {
        r := -1;
      }
    }

    /** `client_read`: a client that is gone cleans its own slot, a text goes to every other client. */
    method ClientReads(cs: int, got: int)
      requires Valid() && 0 <= cs < maxfd && fds[cs].kind.Client?
      modifies fds, this`sent
      ensures Valid()
      ensures got <= 0 ==> sent == old(sent)
                           && fds[..] == old(fds[..])[cs := Fd(Free, NoHandler, NoHandler, old(fds[cs].pending))]
      ensures got > 0 ==> fds[..] == old(fds[..])
                          && sent == old(sent) + Letters(Audience(fds[..], maxfd, cs), cs)
    {
      if got <= 0 {
        CleanFd(cs);
      } else {
        var i := 0;
        while i < maxfd
          invariant 0 <= i <= maxfd && Valid() && fds[..] == old(fds[..])
          invariant sent == old(sent) + Letters(Audience(fds[..], i, cs), cs)
        {
          if fds[i].kind == Client && i != cs {
            LettersSnoc(Audience(fds[..], i, cs), i, cs);
            sent := sent + [(i, cs)];
          }
          i := i + 1;
        }
      }
    }

    /** `srv_accept`: the kernel hands out some descriptor that is not open, or fails. */
    method Accept() returns (ok: bool, cs: int)
      requires Valid()
      modifies fds
      ensures Valid()
      ensures !ok ==> fds[..] == old(fds[..])
      ensures ok ==> 0 <= cs < maxfd && old(fds[cs].kind.Free?)
                     && fds[..] == old(fds[..])[cs := Fd(Client, ClientRead, ClientWrite, old(fds[cs].pending))]
    {
      ok, cs := false, -1;
      var granted: bool := *;
      if granted {
        if k :| 0 <= k < maxfd && fds[k].kind.Free? {
          CleanFd(k);
          fds[k] := fds[k].(kind := Client);
          fds[k] := fds[k].(read := ClientRead);
          fds[k] := fds[k].(write := ClientWrite);
          ok, cs := true, k;
        }
      }
    }

    /** The call through `fct_read` of a ready descriptor. */
    method CallRead(i: int, recv: int -> int) returns (alive: bool)
      requires Valid() && 0 <= i < maxfd && !fds[i].kind.Free?
      modifies fds, this`sent
      ensures Valid()
      ensures forall j :: 0 <= j < maxfd && j != i && !old(fds[j].kind.Free?) ==> fds[j] == old(fds[j])
      ensures alive ==> ReadChanges(old(fds[..]), fds[..], i, recv(i))
      ensures sent == if old(fds[i].kind.Client?) && recv(i) > 0
                      then old(sent) + Letters(Audience(old(fds[..]), maxfd, i), i) else old(sent)
      ensures !alive ==> old(fds[i].kind.Serv?)
    {
      alive := true;
      if fds[i].read == SrvAccept {
        var ok, cs := Accept();
        assert ok ==> forall j :: 0 <= j < maxfd && j != cs ==> fds[..][j] == old(fds[..])[j];
        assert !ok ==> forall j :: 0 <= j < maxfd ==> fds[..][j] == old(fds[..])[j];
        alive := ok;
      } else {
        ClientReads(i, recv(i));
        assert forall j :: 0 <= j < maxfd && j != i ==> fds[..][j] == old(fds[..])[j];
        assert recv(i) > 0 ==> fds[..][i] == old(fds[..])[i];
      }
    }

    /**
     * The read test for slot `i`, in a pass that started with `slots` and `base` and sent `letters`; false: `accept`
     * failed.
     */
    method ReadTurn(i: int, recv: int -> int, ghost slots: seq<Fd>, ghost base: seq<(int, int)>,
                    ghost letters: seq<(int, int)>)
      returns (alive: bool, ghost after: seq<(int, int)>)
      requires Valid() && 0 <= i < maxfd == |slots|
      requires i in fdRead ==> !fds[i].kind.Free? && fds[i] == slots[i]
      requires TableAt(slots, fds[..], fdRead, recv, i) && Delivered(slots, fdRead, recv, i, letters)
      requires sent == base + letters
      modifies fds, this`sent, this`calls
      ensures Valid() && calls == if i in fdRead then old(calls) + [Read(i)] else old(calls)
      ensures forall j :: 0 <= j < maxfd && j != i && !old(fds[j].kind.Free?) ==> fds[j] == old(fds[j])
      ensures if i !in fdRead then alive && fds[i] == old(fds[i])
              else alive ==> fds[i].kind == if slots[i].kind.Client? && recv(i) <= 0 then Free else slots[i].kind
      ensures letters <= after && sent == base + after
      ensures alive ==> TableAt(slots, fds[..], fdRead, recv, i + 1) && Delivered(slots, fdRead, recv, i + 1, after)
      ensures !alive ==> i in fdRead && slots[i].kind.Serv?
    {
      hide Delivered, TableAt, Audience, ReadChanges, Speaks;
      alive, after := true, letters;
      if i in fdRead {
        calls := calls + [Read(i)];
        ghost var before := fds[..];
        alive := CallRead(i, recv);
        ghost var more := if before[i].kind.Client? && recv(i) > 0 then Letters(Audience(before, maxfd, i), i) else [];
        if alive {
          ReadKind(before, fds[..], i, recv(i));
          ReadStep(slots, before, fds[..], fdRead, recv, i, letters, more);
        }
        after := letters + more;
      } else {
        TableIdle(slots, fds[..], fdRead, recv, i);
        NotReady(slots, fdRead, recv, i);
        DeliverNone(slots, fdRead, recv, i, letters);
      }
    }

    /** The write test for slot `i`; false: the handler that is due is null. */
    method WriteTurn(i: int) returns (ok: bool)
      requires Valid() && 0 <= i < maxfd
      modifies this`calls
      ensures ok == (i !in fdWrite || fds[i].kind.Client?)
      ensures ok ==> calls == if i in fdWrite then old(calls) + [Write(i)] else old(calls)
    {
      ok := true;
      if i in fdWrite {
        if fds[i].write == NoHandler {
          return false;
        }
        calls := calls + [Write(i)];
      }
    }

    /** The body of the loop of `check_fd`. */
    method Turn(i: int, recv: int -> int, ghost slots: seq<Fd>, ghost base: seq<(int, int)>, ghost called: seq<Call>,
                ghost letters: seq<(int, int)>, ghost made: seq<Call>)
      returns (outcome: Outcome, ghost after: seq<(int, int)>, ghost more: seq<Call>)
      requires Valid() && 0 <= i < maxfd == |slots| && ReadyUsed(slots, fdRead, fdWrite)
      requires Midway(slots, fds[..], fdRead, fdWrite, recv, i, letters, made, r)
      requires sent == base + letters && calls == called + made
      modifies this`r, this`calls, this`sent, fds
      ensures Valid()
      ensures outcome.Completed? ==> Midway(slots, fds[..], fdRead, fdWrite, recv, i + 1, after, more, r)
      ensures outcome.Completed? ==> sent == base + after && calls == called + more
      ensures outcome.NullCall? ==> !WritesSafe(slots, fdRead, fdWrite, recv)
      ensures outcome.Exited? ==> i in fdRead && slots[i].kind.Serv?
    {
      ghost var before := fds[..];
      MidwayAt(slots, before, fdRead, fdWrite, recv, i, letters, made, r);
      hide Midway, Delivered, TableAt, WritesSafe, CallsAt, Below, Speaks, ReadyUsed;
      after, more := letters, made + CallsAt(i, fdRead, fdWrite);
      CallsAtIs(i, fdRead, fdWrite, called + made);
      var alive: bool;
      alive, after := ReadTurn(i, recv, slots, base, letters);
      if !alive {
        return Exited, after, more;
      }
      SafeStep(slots, fdRead, fdWrite, recv, i);
      var ok := WriteTurn(i);
      if !ok {
        return NullCall(i), after, more;
      }
      if i in fdRead || i in fdWrite {
        r := r - 1;
      }
      MidwayNext(slots, before, fds[..], fdRead, fdWrite, recv, i, letters, after, made, old(r));
      outcome := Completed;
    }

    /**
     * `check_fd`. The count `r` drops once per ready descriptor; leaving when it reaches zero never
     * skips one, whatever `accept` and the hang-ups do to the table on the way.
     */
    method CheckFd(recv: int -> int) returns (outcome: Outcome)
      requires Valid()
      requires forall i :: i in fdRead + fdWrite ==> 0 <= i < maxfd && !fds[i].kind.Free?
      requires r == |fdRead| + |fdWrite|
      modifies this`r, this`calls, this`sent, fds
      ensures Valid()
      ensures outcome.Completed? ==> calls == old(calls) + CallsBelow(maxfd, fdRead, fdWrite)
      ensures outcome.Completed? ==> WritesSafe(old(fds[..]), fdRead, fdWrite, recv)
      ensures outcome.Completed? ==>
                old(sent) <= sent && Delivered(old(fds[..]), fdRead, recv, maxfd, sent[|old(sent)|..])
      ensures outcome.Completed? ==> TableAt(old(fds[..]), fds[..], fdRead, recv, maxfd)
      ensures outcome.NullCall? ==> !WritesSafe(old(fds[..]), fdRead, fdWrite, recv)
      ensures outcome.Exited? ==> exists i :: i in fdRead && old(fds[..])[i].kind.Serv?
    {
      ghost var slots := fds[..];
      assert ReadyUsed(slots, fdRead, fdWrite);
      hide Midway, CallsBelow, Delivered, WritesSafe, ReadyUsed, TableAt;
      ghost var letters: seq<(int, int)>, made: seq<Call> := [], [];
      MidwayStart(slots, fdRead, fdWrite, recv);
      var i := 0;
      while i < maxfd && r > 0
        invariant 0 <= i <= maxfd && Valid()
        invariant Midway(slots, fds[..], fdRead, fdWrite, recv, i, letters, made, r)
        invariant sent == old(sent) + letters && calls == old(calls) + made
      {
        outcome, letters, made := Turn(i, recv, slots, old(sent), old(calls), letters, made);
        if !outcome.Completed? {
          return;
        }
        i := i + 1;
      }
      MidwayEnd(slots, fds[..], fdRead, fdWrite, recv, i, letters, made, r);
      outcome := Completed;
    }

    /**
     * One turn of `main_loop`. When `select` succeeds, either everything it found ready is served, or the
     * process leaves in `accept`, or a null write handler is called; when it fails, nothing is served.
     */
    method Round(rd: set<int>, wr: set<int>, recv: int -> int, selected: bool) returns (outcome: Outcome)
      requires Valid()
      requires rd <= set i | 0 <= i < maxfd && !fds[i].kind.Free?
      requires wr <= set i | 0 <= i < maxfd && !fds[i].kind.Free? && fds[i].pending > 0
      modifies this, fds
      ensures Valid()
      ensures selected && outcome.Completed? ==> calls == old(calls) + CallsBelow(maxfd, rd, wr)
      ensures selected && outcome.Completed? ==> WritesSafe(old(fds[..]), rd, wr, recv)
      ensures selected && outcome.Completed? ==> old(sent) <= sent
      ensures selected && outcome.Completed? ==> Delivered(old(fds[..]), rd, recv, maxfd, sent[|old(sent)|..])
      ensures selected && outcome.Completed? ==> TableAt(old(fds[..]), fds[..], rd, recv, maxfd)
      ensures outcome.NullCall? ==> !WritesSafe(old(fds[..]), rd, wr, recv)
      ensures !selected ==> outcome.Completed? && calls == old(calls) && sent == old(sent) && fds[..] == old(fds[..])
    {
      InitFd();
      DoSelect(rd, wr, selected);
      if selected {
        outcome := CheckFd(recv);
      } else {
        // the loop condition of check_fd fails at once: r is -1
        outcome := Completed;
      }
    }
  }

  lemma NotReady(slots: seq<Fd>, rd: set<int>, recv: int -> int, i: int)
    requires i !in rd
    ensures !Speaks(slots, rd, recv, i)
  {
  }

  lemma NothingYet(slots: seq<Fd>, rd: set<int>, recv: int -> int)
    ensures TableAt(slots, slots, rd, recv, 0) && Delivered(slots, rd, recv, 0, [])
  {
  }

  lemma CountsStart(slots: seq<Fd>, rd: set<int>, wr: set<int>, recv: int -> int)
    requires forall i :: i in rd + wr ==> 0 <= i
    ensures |Below(rd + wr, 0)| == 0 && CallsBelow(0, rd, wr) == [] && WritesSafe(slots, rd, Below(wr, 0), recv)
  {
    assert Below(rd + wr, 0) == {};
    assert Below(wr, 0) <= Below(rd + wr, 0);
  }

  /** A ready writer at `i` is safe if and only if it is a client and its own read does not remove it. */
  lemma SafeStep(slots: seq<Fd>, rd: set<int>, wr: set<int>, recv: int -> int, i: nat)
    requires WritesSafe(slots, rd, Below(wr, i), recv) && i < |slots|
    ensures WritesSafe(slots, rd, Below(wr, i + 1), recv)
         <==> (i in wr ==> slots[i].kind.Client? && (i in rd ==> recv(i) > 0))
    ensures !WritesSafe(slots, rd, Below(wr, i + 1), recv) ==> !WritesSafe(slots, rd, wr, recv)
  {
    assert forall j :: j in Below(wr, i + 1) ==> j in Below(wr, i) || j == i;
    assert i in wr ==> i in Below(wr, i + 1);
  }

  lemma SafeRest(slots: seq<Fd>, rd: set<int>, wr: set<int>, recv: int -> int, i: nat)
    requires WritesSafe(slots, rd, Below(wr, i), recv)
    requires forall j :: i <= j < |slots| ==> j !in wr
    ensures WritesSafe(slots, rd, wr, recv)
  {
    assert forall j :: j in wr && 0 <= j < |slots| ==> j in Below(wr, i);
  }

  lemma CallsAtIs(i: int, rd: set<int>, wr: set<int>, before: seq<Call>)
    ensures before + CallsAt(i, rd, wr)
         == if i in rd && i in wr then before + [Read(i)] + [Write(i)]
            else if i in rd then before + [Read(i)]
            else if i in wr then before + [Write(i)]
            else before
  {
  }

  // ---------------------------------------------------------------- in the middle of a pass

  ghost predicate ReadyUsed(slots: seq<Fd>, rd: set<int>, wr: set<int>) {
    forall i :: i in rd + wr ==> 0 <= i < |slots| && !slots[i].kind.Free?
  }

  /** The pass that started with `slots` stands before slot `i`, with the table `fds` and the count `r`. */
  ghost predicate Midway(slots: seq<Fd>, fds: seq<Fd>, rd: set<int>, wr: set<int>, recv: int -> int, i: int,
                         letters: seq<(int, int)>, made: seq<Call>, r: int) {
    && 0 <= i <= |slots| == |fds|
    && r == |rd| + |wr| - |Below(rd + wr, i)|
    && (forall j :: i <= j < |slots| && j in rd + wr ==> fds[j] == slots[j])
    && made == CallsBelow(i, rd, wr) && WritesSafe(slots, rd, Below(wr, i), recv)
    && TableAt(slots, fds, rd, recv, i) && Delivered(slots, rd, recv, i, letters)
  }

  lemma MidwayStart(slots: seq<Fd>, rd: set<int>, wr: set<int>, recv: int -> int)
    requires ReadyUsed(slots, rd, wr)
    ensures Midway(slots, slots, rd, wr, recv, 0, [], [], |rd| + |wr|)
  {
    NothingYet(slots, rd, recv);
    CountsStart(slots, rd, wr, recv);
  }

  lemma MidwayAt(slots: seq<Fd>, fds: seq<Fd>, rd: set<int>, wr: set<int>, recv: int -> int, i: int,
                 letters: seq<(int, int)>, made: seq<Call>, r: int)
    requires Midway(slots, fds, rd, wr, recv, i, letters, made, r) && ReadyUsed(slots, rd, wr) && i < |slots|
    ensures 0 <= i < |slots| == |fds| && (i in rd || i in wr ==> fds[i] == slots[i] && !slots[i].kind.Free?)
    ensures TableAt(slots, fds, rd, recv, i) && Delivered(slots, rd, recv, i, letters)
    ensures WritesSafe(slots, rd, Below(wr, i), recv)
  {
    hide TableAt, Delivered, WritesSafe, Below, CallsBelow;
    assert i in rd || i in wr ==> i in rd + wr;
  }

  /** One slot was served: the tests of slot `i` leave the other used slots alone. */
  lemma MidwayNext(slots: seq<Fd>, before: seq<Fd>, after: seq<Fd>, rd: set<int>, wr: set<int>, recv: int -> int,
                   i: int, letters: seq<(int, int)>, more: seq<(int, int)>, made: seq<Call>, r: int)
    requires Midway(slots, before, rd, wr, recv, i, letters, made, r) && ReadyUsed(slots, rd, wr)
    requires i < |slots| == |before| == |after|
    requires forall j :: 0 <= j < |before| && j != i && !before[j].kind.Free? ==> after[j] == before[j]
    requires TableAt(slots, after, rd, recv, i + 1) && Delivered(slots, rd, recv, i + 1, more)
    requires WritesSafe(slots, rd, Below(wr, i + 1), recv)
    ensures Midway(slots, after, rd, wr, recv, i + 1, more, made + CallsAt(i, rd, wr),
                   if i in rd || i in wr then r - 1 else r)
  {
    hide TableAt, Delivered, WritesSafe, Below, CallsAt;
    BelowStep(rd + wr, i);
    forall j | i + 1 <= j < |slots| && j in rd + wr ensures after[j] == slots[j] {
      assert before[j] == slots[j];
    }
  }

  /** The loop ends at the end of the table, or when the count says that nothing is left. */
  lemma MidwayEnd(slots: seq<Fd>, fds: seq<Fd>, rd: set<int>, wr: set<int>, recv: int -> int, i: int,
                  letters: seq<(int, int)>, made: seq<Call>, r: int)
    requires Midway(slots, fds, rd, wr, recv, i, letters, made, r) && ReadyUsed(slots, rd, wr)
    requires i == |slots| || r <= 0
    ensures made == CallsBelow(|slots|, rd, wr) && WritesSafe(slots, rd, wr, recv)
    ensures Delivered(slots, rd, recv, |slots|, letters) && TableAt(slots, fds, rd, recv, |slots|)
  {
    hide TableAt, Delivered, WritesSafe, Below, CallsBelow;
    if r <= 0 {
      NothingLeft(|slots|, i, rd, wr);
    }
    assert forall j :: i <= j < |slots| ==> j !in rd + wr;
    SafeRest(slots, rd, wr, recv, i);
    DeliverRest(slots, rd, recv, i, |slots|, letters);
    TableRest(slots, fds, rd, recv, i, |slots|);
  }

  function Letters(to: seq<int>, from: int): (r: seq<(int, int)>)
    ensures |r| == |to| && forall i :: 0 <= i < |to| ==> r[i] == (to[i], from)
  {
    seq(|to|, i requires 0 <= i < |to| => (to[i], from))
  }

  lemma LettersSnoc(to: seq<int>, k: int, from: int)
    ensures Letters(to + [k], from) == Letters(to, from) + [(k, from)]
  {
  }

  ghost predicate Ascending(a: seq<int>) {
    forall i, j :: 0 <= i < j < |a| ==> a[i] < a[j]
  }

  /** The audience is exactly the other clients, each once, in ascending order. */
  lemma {:induction false} AudienceIs(fds: seq<Fd>, n: nat, from: int)
    requires n <= |fds|
    ensures forall i :: i in Audience(fds, n, from) <==> 0 <= i < n && fds[i].kind.Client? && i != from
    ensures Ascending(Audience(fds, n, from))
  {
    if n > 0 {
      AudienceIs(fds, n - 1, from);
      var a := Audience(fds, n - 1, from);
      forall i | 0 <= i < |a| ensures a[i] < n - 1 {
        assert a[i] in a;
      }
      assert Ascending(a + [n - 1]) && a + [] == a;
    }
  }
}
