/** The drag-resize session: the size reported for each pointer move, and the
    document-level listeners a mouse-down registers and a mouse-up removes. */
module Resize {
  import opened Layout

  /** A pointer position in client coordinates. */
  datatype Point = Point(x: real, y: real)

  /** A listener registered on the document. Each mouse-down creates one move
      handler and one up handler, closures that share a session number and
      capture the pointer and container size at the time of the mouse-down. */
  datatype Listener =
    | OnMove(session: nat, startPos: Point, startSize: Dimensions)
    | OnUp(session: nat)

  /** The size reported by a move to p: the size at mouse-down plus the pointer
      offset since then, never below the minimum tile size on either axis. */
  function Resized(startPos: Point, startSize: Dimensions, p: Point): (r: Dimensions)
    ensures r.width >= MinVideoWidth && r.height >= MinVideoHeight
    ensures r.width >= startSize.width + (p.x - startPos.x)
    ensures r.height >= startSize.height + (p.y - startPos.y)
    ensures r.width == MinVideoWidth || r.width == startSize.width + (p.x - startPos.x)
    ensures r.height == MinVideoHeight || r.height == startSize.height + (p.y - startPos.y)
  {
    var deltaX := p.x - startPos.x;
    var deltaY := p.y - startPos.y;
    Dimensions(Max(MinVideoWidth, startSize.width + deltaX), Max(MinVideoHeight, startSize.height + deltaY))
  }

  function Max(a: real, b: real): real
  {
    if a >= b then a else b
  }

  /** Moving the pointer back to where the drag started reports the size at the start. */
  lemma ResizedAtStart(startPos: Point, startSize: Dimensions)
    requires startSize.width >= MinVideoWidth && startSize.height >= MinVideoHeight
    ensures Resized(startPos, startSize, startPos) == startSize
  {
  }

  /** A drag from 800 by 600 moved by (+50, -20) reports 850 by 580. */
  lemma ResizedExample()
    ensures Resized(Point(10.0, 10.0), Dimensions(800.0, 600.0), Point(60.0, -10.0)) == Dimensions(850.0, 580.0)
  {
  }

  /** The two listeners one mouse-down registers, in registration order. */
  function Session(k: nat, startPos: Point, startSize: Dimensions): seq<Listener>
  {
    [OnMove(k, startPos, startSize), OnUp(k)]
  }

  /** The listener list is made of whole sessions, each a move handler followed
      by its up handler, with session numbers increasing from lo and below next. */
  ghost predicate Paired(ls: seq<Listener>, lo: nat, next: nat)
    decreases |ls|
  {
    ls == [] ||
    (|ls| >= 2 && ls[0].OnMove? && lo <= ls[0].session < next && ls[1] == OnUp(ls[0].session)
     && Paired(ls[2..], ls[0].session + 1, next))
  }

  /** No listener in the list belongs to session k. */
  ghost predicate Absent(ls: seq<Listener>, k: nat)
  {
    forall i :: 0 <= i < |ls| ==> ls[i].session != k
  }

  /** The list with both listeners of session k removed, as the up handler of
      that session does; removing a listener that is not registered does nothing. */
  function Unsubscribe(ls: seq<Listener>, k: nat): (r: seq<Listener>)
    ensures |r| <= |ls|
    ensures Absent(r, k)
    ensures forall l :: l in r <==> l in ls && l.session != k
  {
    if ls == [] then []
    else (if ls[0].session == k then [] else [ls[0]]) + Unsubscribe(ls[1..], k)
  }

  /** The sizes one pointer move reports, one per registered move handler, in order. */
  function MoveEmissions(ls: seq<Listener>, p: Point): (r: seq<Dimensions>)
    ensures forall i :: 0 <= i < |r| ==> r[i].width >= MinVideoWidth && r[i].height >= MinVideoHeight
  {
    if ls == [] then []
    else
      (match ls[0]
       case OnMove(_, startPos, startSize) => [Resized(startPos, startSize, p)]
       case OnUp(_) => [])
      + MoveEmissions(ls[1..], p)
  }

  /** The list left after a mouse-up: each up handler of the snapshot taken when
      the event was dispatched runs in order and removes its session's listeners. */
  function DispatchUp(ls: seq<Listener>, snapshot: seq<Listener>): (r: seq<Listener>)
    ensures |r| <= |ls|
    ensures forall l :: l in r ==> l in ls
    decreases |snapshot|
  {
    if snapshot == [] then ls
    else
      DispatchUp(if snapshot[0].OnUp? then Unsubscribe(ls, snapshot[0].session) else ls, snapshot[1..])
  }

  /** A move handler registered after the others reports after them: the last
      size a move reports is the one relative to the newest session's start. */
  lemma {:induction false} MoveEmissionsAppend(ls: seq<Listener>, k: nat, startPos: Point, startSize: Dimensions, p: Point)
    ensures MoveEmissions(ls + Session(k, startPos, startSize), p) == MoveEmissions(ls, p) + [Resized(startPos, startSize, p)]
  {
    var session := Session(k, startPos, startSize);
    if ls == [] {
      assert ls + session == session;
      SingleSessionMove(k, startPos, startSize, p);
    } else {
      assert (ls + session)[0] == ls[0] && (ls + session)[1..] == ls[1..] + session;
      MoveEmissionsAppend(ls[1..], k, startPos, startSize, p);
    }
  }

  /** Some listener in the list is an up handler. */
  predicate HasUpHandler(ls: seq<Listener>)
  {
    exists i :: 0 <= i < |ls| && ls[i].OnUp?
  }

  /** Sessions in a paired list have numbers at least lo and below next. */
  lemma {:induction false} PairedBounds(ls: seq<Listener>, lo: nat, next: nat)
    requires Paired(ls, lo, next)
    ensures forall i :: 0 <= i < |ls| ==> lo <= ls[i].session < next
  {
    if ls != [] {
      PairedBounds(ls[2..], ls[0].session + 1, next);
      forall i | 2 <= i < |ls| ensures lo <= ls[i].session < next {
        assert ls[i] == ls[2..][i - 2];
      }
    }
  }

  /** A mouse-down appends a whole session numbered next, keeping the list paired. */
  lemma {:induction false} PairedSubscribe(ls: seq<Listener>, lo: nat, next: nat, startPos: Point, startSize: Dimensions)
    requires Paired(ls, lo, next) && lo <= next
    ensures Paired(ls + Session(next, startPos, startSize), lo, next + 1)
  {
    if ls == [] {
      assert (ls + Session(next, startPos, startSize))[2..] == [];
    } else {
      PairedSubscribe(ls[2..], ls[0].session + 1, next, startPos, startSize);
      assert (ls + Session(next, startPos, startSize))[2..] == ls[2..] + Session(next, startPos, startSize);
    }
  }

  /** Unsubscribing a session that has no listener leaves the list as it is. */
  lemma {:induction false} UnsubscribeAbsent(ls: seq<Listener>, k: nat)
    requires Absent(ls, k)
    ensures Unsubscribe(ls, k) == ls
  {
    if ls != [] {
      UnsubscribeAbsent(ls[1..], k);
    }
  }

  /** Unsubscribe distributes over concatenation. */
  lemma {:induction false} UnsubscribeAppend(a: seq<Listener>, b: seq<Listener>, k: nat)
    ensures Unsubscribe(a + b, k) == Unsubscribe(a, k) + Unsubscribe(b, k)
  {
    if a == [] {
      assert a + b == b;
    } else {
      var head := if a[0].session == k then [] else [a[0]];
      assert (a + b)[0] == a[0] && (a + b)[1..] == a[1..] + b;
      calc {
        Unsubscribe(a + b, k);
        head + Unsubscribe(a[1..] + b, k);
        { UnsubscribeAppend(a[1..], b, k); }
        head + (Unsubscribe(a[1..], k) + Unsubscribe(b, k));
        (head + Unsubscribe(a[1..], k)) + Unsubscribe(b, k);
        Unsubscribe(a, k) + Unsubscribe(b, k);
      }
    }
  }

  /** The up handler of the session a mouse-down just added removes exactly the
      two listeners that mouse-down registered. */
  lemma UnsubscribeSession(ls: seq<Listener>, lo: nat, next: nat, startPos: Point, startSize: Dimensions)
    requires Paired(ls, lo, next)
    ensures Unsubscribe(ls + Session(next, startPos, startSize), next) == ls
  {
    PairedBounds(ls, lo, next);
    UnsubscribeAbsent(ls, next);
    UnsubscribeAppend(ls, Session(next, startPos, startSize), next);
  }

  /** The up handler of the oldest session removes exactly its two listeners. */
  lemma UnsubscribeFirstSession(ls: seq<Listener>, lo: nat, next: nat)
    requires Paired(ls, lo, next) && ls != []
    ensures Unsubscribe(ls, ls[0].session) == ls[2..]
  {
    var k := ls[0].session;
    var rest := ls[2..];
    var session := Session(k, ls[0].startPos, ls[0].startSize);
    assert ls == session + rest;
    PairedBounds(rest, k + 1, next);
    UnsubscribeAbsent(rest, k);
    UnsubscribeAppend(session, rest, k);
    assert Unsubscribe(session, k) == [] by {
      assert session[1..][1..] == [];
    }
  }

  /** A mouse-up on a paired list removes every registered listener. */
  lemma {:induction false} DispatchUpClears(ls: seq<Listener>, lo: nat, next: nat)
    requires Paired(ls, lo, next)
    ensures DispatchUp(ls, ls) == []
  {
    if ls != [] {
      var k := ls[0].session;
      var rest := ls[2..];
      UnsubscribeFirstSession(ls, lo, next);
      calc {
        DispatchUp(ls, ls);
        DispatchUp(ls, ls[1..]);
        { assert ls[1..][0] == OnUp(k) && ls[1..][1..] == rest; }
        DispatchUp(Unsubscribe(ls, k), rest);
        DispatchUp(rest, rest);
      }
      DispatchUpClears(rest, k + 1, next);
    }
  }

  /** A paired list has an up handler exactly when it is not empty. */
  lemma PairedHasUpHandler(ls: seq<Listener>, lo: nat, next: nat)
    requires Paired(ls, lo, next)
    ensures HasUpHandler(ls) <==> ls != []
  {
  }

  /** A move reports one size per live session: one for a single drag, none once
      every session is gone. */
  lemma {:induction false} MoveEmissionsPerSession(ls: seq<Listener>, lo: nat, next: nat, p: Point)
    requires Paired(ls, lo, next)
    ensures 2 * |MoveEmissions(ls, p)| == |ls|
  {
    if ls != [] {
      assert ls[1..][1..] == ls[2..];
      MoveEmissionsPerSession(ls[2..], ls[0].session + 1, next, p);
    }
  }

  /** The only session's move handler reports the clamped size relative to its start. */
  lemma SingleSessionMove(k: nat, startPos: Point, startSize: Dimensions, p: Point)
    ensures MoveEmissions(Session(k, startPos, startSize), p) == [Resized(startPos, startSize, p)]
  {
    var session := Session(k, startPos, startSize);
    assert session[1..] == [OnUp(k)];
    assert MoveEmissions([OnUp(k)], p) == [];
  }
}
