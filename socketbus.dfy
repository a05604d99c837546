/**
 * The listener table of the shared socket. `on(event, fn)` appends a listener;
 * `off(event, fn)` removes the first listener of that event registered with
 * that very function; `off(event)` without a function removes every listener
 * of the event, whoever registered it. A function is identified by the event
 * it was registered for and the registration it came from.
 */
module SocketBus {

  datatype Listener = Listener(event: string, owner: nat)

  /** `r` is `ls` without the occurrence of `l` at `i`, its first. */
  predicate RemovedAt(ls: seq<Listener>, l: Listener, r: seq<Listener>, i: int) {
    0 <= i < |ls| && ls[i] == l && l !in ls[..i] && r == ls[..i] + ls[i + 1..]
  }

  /** The list without the first occurrence of `l`, the rest in order. */
  function RemoveFirst(ls: seq<Listener>, l: Listener): (r: seq<Listener>)
    ensures l !in ls ==> r == ls
    ensures l in ls ==> |r| == |ls| - 1
    ensures l in ls ==> exists i :: RemovedAt(ls, l, r, i)
  {
    if ls == [] then []
    else if ls[0] == l then
      assert RemovedAt(ls, l, ls[1..], 0);
      ls[1..]
    else
      var rest := RemoveFirst(ls[1..], l);
      RemovedAtCons(ls, l, rest);
      [ls[0]] + rest
  }

  /** Removing the first `l` from the tail of a list whose head is not `l` removes its first `l`. */
  lemma RemovedAtCons(ls: seq<Listener>, l: Listener, rest: seq<Listener>)
    requires ls != [] && ls[0] != l
    requires l in ls[1..] ==> exists j :: RemovedAt(ls[1..], l, rest, j)
    ensures l in ls ==> exists i :: RemovedAt(ls, l, [ls[0]] + rest, i)
  {
    if l in ls {
      assert l in ls[1..] by {
        var k :| 0 <= k < |ls| && ls[k] == l;
        assert ls[1..][k - 1] == l;
      }
      var j :| RemovedAt(ls[1..], l, rest, j);
      assert ls[..j + 1] == [ls[0]] + ls[1..][..j];
      assert ls[j + 2..] == ls[1..][j + 1..];
      assert RemovedAt(ls, l, [ls[0]] + rest, j + 1);
    }
  }

  /** The list without any listener of `event`. */
  function RemoveEvent(ls: seq<Listener>, event: string): (r: seq<Listener>)
    ensures forall i :: 0 <= i < |r| ==> r[i].event != event && r[i] in ls
    ensures forall i :: 0 <= i < |ls| && ls[i].event != event ==> ls[i] in r
  {
    if ls == [] then []
    else if ls[0].event == event then RemoveEvent(ls[1..], event)
    else [ls[0]] + RemoveEvent(ls[1..], event)
  }

  /** Removes the first occurrence of each listener of `rs`, in order. */
  function RemoveEach(ls: seq<Listener>, rs: seq<Listener>): seq<Listener>
    decreases |rs|
  {
    if rs == [] then ls else RemoveEach(RemoveFirst(ls, rs[0]), rs[1..])
  }

  /** When `l` is not in `a`, its first occurrence in `a + b` lies in `b`. */
  lemma {:induction false} RemoveFirstAfter(a: seq<Listener>, b: seq<Listener>, l: Listener)
    requires l !in a
    ensures RemoveFirst(a + b, l) == a + RemoveFirst(b, l)
  {
    if a == [] {
      assert a + b == b;
    } else {
      var rest := a[1..];
      assert (a + b)[1..] == rest + b;
      assert RemoveFirst(a + b, l) == [a[0]] + RemoveFirst(rest + b, l);
      RemoveFirstAfter(rest, b, l);
      HeadAppend(a, RemoveFirst(b, l));
    }
  }

  /** A non-empty list followed by `c` is its head followed by its tail and `c`. */
  lemma HeadAppend(a: seq<Listener>, c: seq<Listener>)
    requires a != []
    ensures a + c == [a[0]] + (a[1..] + c)
  {
    assert a == [a[0]] + a[1..];
  }

  /** Removing listeners that were appended after `a`, none of which is in `a`, gives back `a`. */
  lemma {:induction false} RemoveEachAppended(a: seq<Listener>, rs: seq<Listener>)
    requires forall i :: 0 <= i < |rs| ==> rs[i] !in a
    ensures RemoveEach(a + rs, rs) == a
    decreases |rs|
  {
    if rs == [] {
      assert a + rs == a;
    } else {
      RemoveFirstAfter(a, rs, rs[0]);
      assert RemoveFirst(rs, rs[0]) == rs[1..];
      RemoveEachAppended(a, rs[1..]);
    }
  }

  /** Removing every listener of several events. */
  function RemoveEvents(ls: seq<Listener>, events: seq<string>): seq<Listener>
    decreases |events|
  {
    if events == [] then ls else RemoveEvents(RemoveEvent(ls, events[0]), events[1..])
  }

  class Socket {
    var listeners: seq<Listener>

    constructor ()
      ensures listeners == []
    {
      listeners := [];
    }

    /** `socket.on(event, fn)`. */
    method On(l: Listener)
      modifies this
      ensures listeners == old(listeners) + [l]
    {
      listeners := listeners + [l];
    }

    /** `socket.off(event, fn)`. */
    method Off(l: Listener)
      modifies this
      ensures listeners == RemoveFirst(old(listeners), l)
    {
      listeners := RemoveFirst(listeners, l);
    }

    /** `socket.off(event)`. */
    method OffEvent(event: string)
      modifies this
      ensures listeners == RemoveEvent(old(listeners), event)
    {
      listeners := RemoveEvent(listeners, event);
    }
  }
}
