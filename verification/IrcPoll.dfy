/**
 * The poll vector of `_irc_`, and who gets a turn in a round. The event loop walks the vector by index while its
 * handlers append to it and erase from it, so a close makes the loop jump over the descriptor that follows.
 */
module IrcPoll {
  import opened Lists
  import opened Text
  import opened IrcState
  import opened IrcInvariant

  class PollManager {
    var fds: seq<int>

    constructor ()
      ensures fds == []
    {
      fds := [];
    }

    method AddFd(fd: int)
      modifies this
      ensures fds == old(fds) + [fd]
    {
      fds := fds + [fd];
    }

    /** `std::remove_if` and `erase`. */
    method RemoveFd(fd: int)
      modifies this
      ensures fds == Without(old(fds), fd)
    {
      hide Without;
      var kept := [];
      assert fds[0..] == fds;
      for i := 0 to |fds|
        invariant fds == old(fds) && Without(fds, fd) == kept + Without(fds[i..], fd)
      {
        WithoutFrom(fds, fd, i, kept);
        if fds[i] != fd {
          kept := kept + [fds[i]];
        }
      }
      WithoutNone(fd, kept);
      assert fds[|fds|..] == [];
      fds := kept;
    }
  }

  lemma WithoutFrom(fds: seq<int>, fd: int, i: nat, kept: seq<int>)
    requires i < |fds|
    ensures kept + Without(fds[i..], fd)
         == (if fds[i] == fd then kept else kept + [fds[i]]) + Without(fds[i + 1..], fd)
  {
    assert fds[i..][0] == fds[i] && fds[i..][1..] == fds[i + 1..];
  }

  lemma WithoutNone(fd: int, kept: seq<int>)
    ensures kept + Without([], fd) == kept
  {
  }

  // ---------------------------------------------------------------- which positions get their turn

  /** The loop stops at position `k` unless it just closed the position before. */
  predicate Turn(fds: seq<int>, ready: set<int>, closing: set<int>, k: nat)
    requires k <= |fds|
    decreases k, 0
  {
    k == 0 || !Shuts(fds, ready, closing, k - 1)
  }

  /** Position `k` is handled and its client is closed. */
  predicate Shuts(fds: seq<int>, ready: set<int>, closing: set<int>, k: nat)
    requires k < |fds|
    decreases k, 1
  {
    Turn(fds, ready, closing, k) && fds[k] in ready && fds[k] in closing
  }

  /** The descriptors handled among the first `p` positions. */
  function Visited(fds: seq<int>, ready: set<int>, closing: set<int>, p: nat): seq<int>
    requires p <= |fds|
  {
    if p == 0 then []
    else
      var turn := Turn(fds, ready, closing, p - 1) && fds[p - 1] in ready;
      Visited(fds, ready, closing, p - 1) + if turn then [fds[p - 1]] else []
  }

  /** What is left of the first `p` positions. */
  function Kept(fds: seq<int>, ready: set<int>, closing: set<int>, p: nat): (r: seq<int>)
    requires p <= |fds|
    ensures |r| <= p
    ensures p > 0 && !Shuts(fds, ready, closing, 0) ==> r != [] && r[0] == fds[0]
  {
    if p == 0 then []
    else Kept(fds, ready, closing, p - 1) + if Shuts(fds, ready, closing, p - 1) then [] else [fds[p - 1]]
  }

  lemma {:induction false} KeptIs(fds: seq<int>, ready: set<int>, closing: set<int>, p: nat)
    requires p <= |fds|
    ensures forall fd :: fd in Kept(fds, ready, closing, p)
              <==> exists k :: 0 <= k < p && fds[k] == fd && !Shuts(fds, ready, closing, k)
  {
    if p > 0 {
      KeptIs(fds, ready, closing, p - 1);
    }
  }

  lemma {:induction false} VisitedIs(fds: seq<int>, ready: set<int>, closing: set<int>, p: nat)
    requires p <= |fds|
    ensures forall fd :: fd in Visited(fds, ready, closing, p)
              <==> exists k :: 0 <= k < p && fds[k] == fd && Turn(fds, ready, closing, k) && fd in ready
  {
    if p > 0 {
      VisitedIs(fds, ready, closing, p - 1);
    }
  }

  /** No descriptor is handled twice in a round. */
  lemma {:induction false} HandledOnce(fds: seq<int>, ready: set<int>, closing: set<int>, p: nat)
    requires p <= |fds| && Distinct(fds)
    ensures Distinct(Visited(fds, ready, closing, p))
  {
    if p > 0 {
      HandledOnce(fds, ready, closing, p - 1);
      VisitedIs(fds, ready, closing, p - 1);
    }
  }

  /**
   * A ready descriptor misses its turn exactly when the one before it was handled and closed;
   * it is then still in the vector, at least one place nearer to the front.
   */
  lemma SkippedStays(fds: seq<int>, ready: set<int>, closing: set<int>, k: nat) returns (at: nat)
    requires k < |fds| && Distinct(fds) && fds[k] in ready
    ensures fds[k] !in Visited(fds, ready, closing, |fds|) <==> k > 0 && Shuts(fds, ready, closing, k - 1)
    ensures fds[k] !in Visited(fds, ready, closing, |fds|) ==>
              at < k && at < |Kept(fds, ready, closing, |fds|)| && Kept(fds, ready, closing, |fds|)[at] == fds[k]
  {
    VisitedIs(fds, ready, closing, |fds|);
    at := |Kept(fds, ready, closing, k)|;
    if !Turn(fds, ready, closing, k) {
      assert Kept(fds, ready, closing, k + 1) == Kept(fds, ready, closing, k) + [fds[k]];
      assert Kept(fds, ready, closing, k) == Kept(fds, ready, closing, k - 1);
      KeptGrows(fds, ready, closing, k + 1, |fds|);
    }
  }

  lemma {:induction false} KeptGrows(fds: seq<int>, ready: set<int>, closing: set<int>, p: nat, q: nat)
    requires p <= q <= |fds|
    ensures Kept(fds, ready, closing, p) <= Kept(fds, ready, closing, q)
    decreases q
  {
    if p < q {
      KeptGrows(fds, ready, closing, p, q - 1);
    }
  }

  // ---------------------------------------------------------------- the loop

  lemma {:induction false} WithoutConcat(a: seq<int>, b: seq<int>, fd: int)
    ensures Without(a + b, fd) == Without(a, fd) + Without(b, fd)
  {
    if a == [] {
      assert a + b == b;
    } else {
      assert (a + b)[1..] == a[1..] + b;
      WithoutConcat(a[1..], b, fd);
    }
  }

  lemma {:induction false} WithoutAbsent(s: seq<int>, fd: int)
    requires fd !in s
    ensures Without(s, fd) == s
  {
    if s != [] {
      WithoutAbsent(s[1..], fd);
    }
  }

  lemma WithoutHead(fd: int, b: seq<int>)
    ensures Without([fd] + b, fd) == Without(b, fd)
  {
    assert ([fd] + b)[1..] == b;
  }

  lemma WithoutAt(a: seq<int>, fd: int, b: seq<int>)
    requires fd !in a && fd !in b
    ensures Without(a + ([fd] + b), fd) == a + b
  {
    hide Without;
    WithoutConcat(a, [fd] + b, fd);
    WithoutHead(fd, b);
    WithoutAbsent(a, fd);
    WithoutAbsent(b, fd);
  }

  lemma MoveOver(a: seq<int>, x: int, b: seq<int>, c: seq<int>)
    ensures a + ([x] + b) + c == a + [x] + b + c && a + [] == a
  {
  }

  lemma KeptMisses(start: seq<int>, ready: set<int>, closing: set<int>, p: nat)
    requires Distinct(start) && p < |start|
    ensures start[p] !in Kept(start, ready, closing, p) && start[p] !in start[p + 1..]
  {
    hide Kept, Shuts;
    KeptIs(start, ready, closing, p);
    assert forall k :: 0 <= k < p ==> start[k] != start[p];
    assert forall fd :: fd in Kept(start, ready, closing, p) ==> exists k :: 0 <= k < p && start[k] == fd;
    assert forall k :: p < k < |start| ==> start[k] != start[p];
  }

  /** Removing the descriptor at the loop's position takes out that position only. */
  lemma CloseAt(start: seq<int>, ready: set<int>, closing: set<int>, extra: seq<int>, p: nat)
    requires Distinct(start) && p < |start| && start[p] !in extra
    ensures Without(Kept(start, ready, closing, p) + start[p..] + extra, start[p])
         == Kept(start, ready, closing, p) + start[p + 1..] + extra
  {
    hide *;
    var kept, fd := Kept(start, ready, closing, p), start[p];
    KeptMisses(start, ready, closing, p);
    WithoutAt(kept, fd, start[p + 1..] + extra);
    assert kept + start[p..] + extra == kept + ([fd] + (start[p + 1..] + extra));
    assert kept + start[p + 1..] + extra == kept + (start[p + 1..] + extra);
  }

  /** The descriptor that `accept` gave, if the listener was ready. */
  function Fresh(fds: seq<int>, ready: set<int>, accepted: Option<(int, string)>): seq<int> {
    if fds != [] && fds[0] in ready && accepted.Some? then [accepted.value.0] else []
  }

  /** The loop stands before position `p` of the vector it started with, or past all of them. */
  ghost predicate Progress(start: seq<int>, now: seq<int>, ready: set<int>, closing: set<int>, extra: seq<int>, i: nat,
                           p: nat) {
    && p <= |start| && now == Kept(start, ready, closing, p) + start[p..] + extra
    && if p < |start| then i == |Kept(start, ready, closing, p)| && Turn(start, ready, closing, p)
       else i >= |Kept(start, ready, closing, p)|
  }

  /** The position after `p`: a close makes the loop jump. */
  ghost function Next(start: seq<int>, ready: set<int>, closing: set<int>, p: nat): (q: nat)
    requires p < |start|
    ensures p < q <= |start|
  {
    if Shuts(start, ready, closing, p) && p + 1 < |start| then p + 2 else p + 1
  }

  lemma StepOne(start: seq<int>, ready: set<int>, closing: set<int>, p: nat)
    requires p < |start|
    ensures Kept(start, ready, closing, p + 1)
         == Kept(start, ready, closing, p) + if Shuts(start, ready, closing, p) then [] else [start[p]]
    ensures Visited(start, ready, closing, p + 1)
         == Visited(start, ready, closing, p)
            + if Turn(start, ready, closing, p) && start[p] in ready then [start[p]] else []
    ensures Turn(start, ready, closing, p + 1) <==> !Shuts(start, ready, closing, p)
    ensures Shuts(start, ready, closing, p)
       <==> Turn(start, ready, closing, p) && start[p] in ready && start[p] in closing
  {
  }

  lemma NextTurn(start: seq<int>, now: seq<int>, ready: set<int>, closing: set<int>, extra: seq<int>, i: nat, p: nat)
    requires p < |start| && Turn(start, ready, closing, p) && i == |Kept(start, ready, closing, p)|
    requires var rest := if Shuts(start, ready, closing, p) then start[p + 1..] else start[p..];
             now == Kept(start, ready, closing, p) + rest + extra
    ensures Progress(start, now, ready, closing, extra, i + 1, Next(start, ready, closing, p))
  {
    hide Kept, Shuts, Turn, Visited;
    var q := Next(start, ready, closing, p);
    var kept := Kept(start, ready, closing, p);
    StepOne(start, ready, closing, p);
    if q == p + 2 {
      StepOne(start, ready, closing, p + 1);
      assert start[p + 1..] == [start[p + 1]] + start[q..];
      MoveOver(kept, start[p + 1], start[q..], extra);
    } else {
      assert start[p..] == [start[p]] + start[q..];
      MoveOver(kept, start[p], start[q..], extra);
    }
  }

  lemma NextVisited(start: seq<int>, ready: set<int>, closing: set<int>, p: nat)
    requires p < |start| && Turn(start, ready, closing, p)
    ensures var q := Next(start, ready, closing, p);
            Visited(start, ready, closing, q)
            == Visited(start, ready, closing, p) + if start[p] in ready then [start[p]] else []
  {
    hide Kept, Shuts, Turn, Visited;
    StepOne(start, ready, closing, p);
    if Next(start, ready, closing, p) == p + 2 {
      StepOne(start, ready, closing, p + 1);
    }
  }

  /** What is closed from position `p` on does not matter before it. */
  lemma {:induction false} OtherClosing(start: seq<int>, ready: set<int>, a: set<int>, b: set<int>, p: nat)
    requires p <= |start| && forall k :: 0 <= k < p ==> (start[k] in a <==> start[k] in b)
    ensures Turn(start, ready, a, p) == Turn(start, ready, b, p) && Kept(start, ready, a, p) == Kept(start, ready, b, p)
    ensures Visited(start, ready, a, p) == Visited(start, ready, b, p)
  {
    if p > 0 {
      OtherClosing(start, ready, a, b, p - 1);
    }
  }

  /** The handler of position `p` is done; `closed` tells whether it removed the descriptor. */
  lemma HandledOne(start: seq<int>, now: seq<int>, after: seq<int>, ready: set<int>, closing: set<int>, extra: seq<int>,
                   i: nat, p: nat, closed: bool)
    requires Progress(start, now, ready, closing, extra, i, p) && p < |start| && Distinct(start)
    requires start[p] in ready && start[p] !in closing && start[p] !in extra
    requires after == if closed then Without(now, start[p]) else now
    ensures var closing' := if closed then closing + {start[p]} else closing;
            var q := Next(start, ready, closing', p);
            && Progress(start, after, ready, closing', extra, i + 1, q)
            && Visited(start, ready, closing', q) == Visited(start, ready, closing, p) + [start[p]]
  {
    hide Kept, Shuts, Turn, Visited, Without;
    var closing' := if closed then closing + {start[p]} else closing;
    OtherClosing(start, ready, closing, closing', p);
    StepOne(start, ready, closing', p);
    if closed {
      CloseAt(start, ready, closing', extra, p);
    }
    NextTurn(start, after, ready, closing', extra, i, p);
    NextVisited(start, ready, closing', p);
  }

  /** Position `p` is not ready, or its handler appended to the vector. */
  lemma PassedOne(start: seq<int>, now: seq<int>, ready: set<int>, closing: set<int>, extra: seq<int>, i: nat, p: nat)
    requires Progress(start, now, ready, closing, extra, i, p) && p < |start| && start[p] !in closing
    ensures Next(start, ready, closing, p) == p + 1
    ensures Progress(start, now, ready, closing, extra, i + 1, p + 1)
    ensures Visited(start, ready, closing, p + 1)
         == Visited(start, ready, closing, p) + if start[p] in ready then [start[p]] else []
  {
    hide Kept, Shuts, Turn, Visited;
    StepOne(start, ready, closing, p);
    NextTurn(start, now, ready, closing, extra, i, p);
    NextVisited(start, ready, closing, p);
  }
}
