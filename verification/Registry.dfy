/** The server's list of connections: add_connection and remove_connection, each atomic under
    vector_protect, in any interleaving of connects and clean-ups. */
module Registry {

  type Conn = nat // the address of a connection_t

  /** What std::remove and erase leave of a vector. */
  function Without(v: seq<Conn>, c: Conn): seq<Conn> {
    if v == [] then []
    else Without(v[..|v| - 1], c) + (if v[|v| - 1] == c then [] else [v[|v| - 1]])
  }

  lemma WithoutLast(v: seq<Conn>, x: Conn, c: Conn)
    ensures Without(v + [x], c) == Without(v, c) + (if x == c then [] else [x])
  {
    assert (v + [x])[..|v|] == v;
  }

  lemma {:induction false} WithoutCounts(v: seq<Conn>, c: Conn, x: Conn)
    ensures multiset(Without(v, c))[x] == if x == c then 0 else multiset(v)[x]
    decreases |v|
  {
    if v == [] {
    } else {
      WithoutCounts(v[..|v| - 1], c, x);
      assert v == v[..|v| - 1] + [v[|v| - 1]];
    }
  }

  lemma OthersKept(v: seq<Conn>, c: Conn)
    ensures forall x :: multiset(Without(v, c))[x] == if x == c then 0 else multiset(v)[x]
  {
    forall x ensures multiset(Without(v, c))[x] == if x == c then 0 else multiset(v)[x] {
      WithoutCounts(v, c, x);
    }
  }

  lemma Overwritten(s: seq<Conn>, kept: nat, i: nat, x: Conn)
    requires kept <= i < |s|
    ensures s[kept := x][..kept + 1] == s[..kept] + [x] && s[kept := x][i + 1..] == s[i + 1..]
  {
  }

  /** One turn of the compaction of v: now[..kept] is done, now[i..] is still as in v. */
  lemma Compacted(v: seq<Conn>, now: seq<Conn>, kept: nat, i: nat, c: Conn)
    requires kept <= i < |now| == |v| && now[..kept] == Without(v[..i], c) && now[i..] == v[i..]
    ensures if now[i] == c then now[..kept] == Without(v[..i + 1], c) && now[i + 1..] == v[i + 1..]
            else var next := now[kept := now[i]];
                 next[..kept + 1] == Without(v[..i + 1], c) && next[i + 1..] == v[i + 1..]
  {
    assert now[i] == now[i..][0] == v[i..][0] == v[i];
    assert now[i + 1..] == now[i..][1..] == v[i..][1..] == v[i + 1..];
    assert v[..i + 1] == v[..i] + [v[i]];
    WithoutLast(v[..i], v[i], c);
    Overwritten(now, kept, i, now[i]);
  }

  // ---- Any interleaving ----

  /** init_connection registers a connection, thread_cleanup removes it. */
  datatype Op = Connect(c: Conn) | Cleanup(c: Conn)

  function After(v: seq<Conn>, op: Op): seq<Conn> {
    match op
    case Connect(c) => v + [c]
    case Cleanup(c) => Without(v, c)
  }

  function Replay(ops: seq<Op>): seq<Conn> {
    if ops == [] then [] else After(Replay(ops[..|ops| - 1]), ops[|ops| - 1])
  }

  /** The i-th operation registers a connection that no later one removes. */
  predicate Survives(ops: seq<Op>, i: nat)
    requires i < |ops|
  {
    ops[i].Connect? && forall j :: i < j < |ops| ==> ops[j] != Cleanup(ops[i].c)
  }

  /** The surviving connections among the first n operations, in the order they came. */
  function Survivors(ops: seq<Op>, n: nat): seq<Conn>
    requires n <= |ops|
  {
    if n == 0 then [] else Survivors(ops, n - 1) + (if Survives(ops, n - 1) then [ops[n - 1].c] else [])
  }

  lemma SurvivesAppend(ops: seq<Op>, op: Op, i: nat)
    requires i < |ops|
    ensures Survives(ops + [op], i) <==> Survives(ops, i) && op != Cleanup(ops[i].c)
  {
    var all := ops + [op];
    assert forall j :: 0 <= j < |ops| ==> all[j] == ops[j];
    assert all[|ops|] == op;
  }

  lemma {:induction false} SurvivorsAppend(ops: seq<Op>, op: Op, n: nat)
    requires n <= |ops|
    ensures Survivors(ops + [op], n) == if op.Cleanup? then Without(Survivors(ops, n), op.c) else Survivors(ops, n)
    decreases n
  {
    if n == 0 {
    } else {
      SurvivorsAppend(ops, op, n - 1);
      SurvivesAppend(ops, op, n - 1);
      assert (ops + [op])[n - 1] == ops[n - 1];
      var before := Survivors(ops, n - 1);
      assert before + [] == before && Without(before, op.c) + [] == Without(before, op.c);
      if Survives(ops, n - 1) {
        WithoutLast(before, ops[n - 1].c, op.c);
      }
    }
  }

  /** Conservation: after any interleaving the list holds exactly the connections that were registered
      and not removed since, in the order of their registration. */
  lemma {:induction false} ReplayIsSurvivors(ops: seq<Op>)
    ensures Replay(ops) == Survivors(ops, |ops|)
    decreases |ops|
  {
    if ops == [] {
    } else {
      var before, op := ops[..|ops| - 1], ops[|ops| - 1];
      ReplayIsSurvivors(before);
      assert before + [op] == ops;
      SurvivorsAppend(before, op, |before|);
      assert Survivors(ops, |ops| - 1) == Survivors(before + [op], |before|);
    }
  }

  /** A connection is registered at a new address: not one that is still in the list. */
  predicate FreshConnects(ops: seq<Op>) {
    forall i, j :: 0 <= i < j < |ops| && ops[i].Connect? && ops[j] == ops[i] ==>
      exists k :: i < k < j && ops[k] == Cleanup(ops[i].c)
  }

  /** One of the first n operations registers c, and no later operation removes it. */
  ghost predicate Registered(ops: seq<Op>, n: nat, c: Conn)
    requires n <= |ops|
  {
    exists i :: 0 <= i < n && ops[i] == Connect(c) && Survives(ops, i)
  }

  lemma RegisteredNext(ops: seq<Op>, n: nat, c: Conn)
    requires FreshConnects(ops) && n < |ops|
    ensures Registered(ops, n + 1, c) <==> Registered(ops, n, c) || (ops[n] == Connect(c) && Survives(ops, n))
    ensures ops[n] == Connect(c) ==> !Registered(ops, n, c)
  {
    if ops[n] == Connect(c) {
      forall i | 0 <= i < n && ops[i] == Connect(c) ensures !Survives(ops, i) {
        var k :| i < k < n && ops[k] == Cleanup(c);
      }
    }
  }

  lemma {:induction false} SurvivorOnce(ops: seq<Op>, n: nat, c: Conn)
    requires FreshConnects(ops) && n <= |ops|
    ensures multiset(Survivors(ops, n))[c] == if Registered(ops, n, c) then 1 else 0
    decreases n
  {
    if n == 0 {
    } else {
      SurvivorOnce(ops, n - 1, c);
      RegisteredNext(ops, n - 1, c);
    }
  }

  /** With fresh addresses, a connection is in the list once if it was registered and not removed
      since, and not at all otherwise. */
  lemma ListedOnce(ops: seq<Op>, c: Conn)
    requires FreshConnects(ops)
    ensures multiset(Replay(ops))[c] == if Registered(ops, |ops|, c) then 1 else 0
  {
    ReplayIsSurvivors(ops);
    SurvivorOnce(ops, |ops|, c);
  }

  /** The server's data as far as it concerns connections. */
  class ServerData {
    var connections: seq<Conn>

    constructor ()
      ensures connections == []
    {
      connections := [];
    }

    method AddConnection(c: Conn)
      modifies this
      ensures connections == old(connections) + [c]
    {
      connections := connections + [c];
    }

    /** std::remove moves the other entries forward, and erase drops what is left behind them: no entry
        of c remains, and the others are as many as before, in their order. */
    method RemoveConnection(c: Conn)
      modifies this
      ensures connections == Without(old(connections), c)
      ensures forall x :: multiset(connections)[x] == if x == c then 0 else multiset(old(connections))[x]
    {
      ghost var v := connections;
      var kept, i := 0, 0;
      while i < |connections|
        invariant kept <= i <= |connections| == |v|
        invariant connections[..kept] == Without(v[..i], c) && connections[i..] == v[i..]
      {
        Compacted(v, connections, kept, i, c);
        if connections[i] != c {
          connections := connections[kept := connections[i]];
          kept := kept + 1;
        }
        i := i + 1;
      }
      assert v[..i] == v;
      connections := connections[..kept];
      OthersKept(v, c);
    }

    /** Connects and clean-ups, one after the other: each holds vector_protect for its whole call. */
    method Perform(ops: seq<Op>)
      requires connections == []
      modifies this
      ensures connections == Survivors(ops, |ops|)
    {
      var i := 0;
      while i < |ops|
        invariant 0 <= i <= |ops| && connections == Replay(ops[..i])
      {
        assert ops[..i + 1][..i] == ops[..i];
        match ops[i] {
          case Connect(c) => AddConnection(c);
          case Cleanup(c) => RemoveConnection(c);
        }
        i := i + 1;
      }
      assert ops[..i] == ops;
      ReplayIsSurvivors(ops);
    }
  }
}
