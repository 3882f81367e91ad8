/**
 * The client list of BleService as values: LinkedList.remove(Object),
 * and the specification of the broadcast loop in sendMessage(Message),
 * which walks the list from the end and removes every client whose
 * delivery fails.
 */
module Hub {
  import opened Seqs
  import opened Protocol

  /** Index of the first occurrence of `x`, as List.indexOf. */
  function IndexOf(s: seq<ClientId>, x: ClientId): (k: nat)
    requires x in s
    ensures k < |s| && s[k] == x
    ensures x !in s[..k]
  {
    if s[0] == x then 0
    else
      assert x in s[1..];
      var k := IndexOf(s[1..], x);
      assert s[..k + 1] == [s[0]] + s[1..][..k];
      k + 1
  }

  /** List.remove(Object): drops the first element equal to `x`, if any. */
  function RemoveFirst(s: seq<ClientId>, x: ClientId): seq<ClientId>
  {
    if s == [] then []
    else if s[0] == x then s[1..]
    else [s[0]] + RemoveFirst(s[1..], x)
  }

  /**
   * Exactly one occurrence of `x` is removed when there is one, so the list
   * is one shorter; when there is none the list is unchanged.
   */
  lemma {:induction false} RemoveFirstCounts(s: seq<ClientId>, x: ClientId)
    ensures multiset(RemoveFirst(s, x)) == multiset(s) - multiset{x}
    ensures x in s ==> |RemoveFirst(s, x)| == |s| - 1
    ensures x !in s ==> RemoveFirst(s, x) == s
  {
    if s != [] {
      assert s == [s[0]] + s[1..];
      if s[0] != x {
        RemoveFirstCounts(s[1..], x);
      }
    }
  }

  /** Only the first occurrence goes; everything before and after it stays in order. */
  lemma {:induction false} RemoveFirstAt(s: seq<ClientId>, x: ClientId)
    requires x in s
    ensures RemoveFirst(s, x) == s[..IndexOf(s, x)] + s[IndexOf(s, x) + 1..]
  {
    if s[0] != x {
      assert x in s[1..];
      RemoveFirstAt(s[1..], x);
      var k := IndexOf(s[1..], x);
      assert s[..k + 1] == [s[0]] + s[1..][..k];
      assert s[k + 2..] == s[1..][k + 1..];
    }
  }

  /** Removing an element that lies in the prefix leaves the suffix alone. */
  lemma {:induction false} RemoveFirstAppend(u: seq<ClientId>, f: seq<ClientId>, x: ClientId)
    requires x in u
    ensures RemoveFirst(u + f, x) == RemoveFirst(u, x) + f
  {
    assert (u + f)[0] == u[0];
    assert (u + f)[1..] == u[1..] + f;
    if u[0] != x {
      RemoveFirstAppend(u[1..], f, x);
    }
  }

  /** In a duplicate-free list the first occurrence of the last element is the last one. */
  lemma RemoveLastNoDup(u: seq<ClientId>)
    requires NoDup(u) && u != []
    ensures RemoveFirst(u, u[|u| - 1]) == u[..|u| - 1]
  {
    var n := |u| - 1;
    RemoveFirstAt(u, u[n]);
    var k := IndexOf(u, u[n]);
    assert k == n;
  }

  /** The clients for which `ok` holds, in their original order. */
  function Filter(ok: ClientId -> bool, s: seq<ClientId>): seq<ClientId>
  {
    if s == [] then []
    else (if ok(s[0]) then [s[0]] else []) + Filter(ok, s[1..])
  }

  /** The survivors are exactly the members that accept delivery; the list never grows. */
  lemma {:induction false} FilterMembers(ok: ClientId -> bool, s: seq<ClientId>)
    ensures forall x :: x in Filter(ok, s) <==> x in s && ok(x)
    ensures |Filter(ok, s)| <= |s|
  {
    if s != [] {
      FilterMembers(ok, s[1..]);
      assert s == [s[0]] + s[1..];
    }
  }

  lemma {:induction false} FilterAppend(ok: ClientId -> bool, a: seq<ClientId>, b: seq<ClientId>)
    ensures Filter(ok, a + b) == Filter(ok, a) + Filter(ok, b)
  {
    if a == [] {
      assert a + b == b;
    } else {
      assert (a + b)[0] == a[0];
      assert (a + b)[1..] == a[1..] + b;
      FilterAppend(ok, a[1..], b);
    }
  }

  /** Removing one failing client does not change which clients survive. */
  lemma FilterRemoveFailing(ok: ClientId -> bool, s: seq<ClientId>, x: ClientId)
    requires x in s && !ok(x)
    ensures Filter(ok, RemoveFirst(s, x)) == Filter(ok, s)
  {
    var k := IndexOf(s, x);
    var a, b := s[..k], s[k + 1..];
    assert s == a + ([x] + b);
    calc {
      Filter(ok, RemoveFirst(s, x));
      == { RemoveFirstAt(s, x); }
      Filter(ok, a + b);
      == { FilterAppend(ok, a, b); }
      Filter(ok, a) + Filter(ok, b);
      == { assert ([x] + b)[1..] == b; }
      Filter(ok, a) + Filter(ok, [x] + b);
      == { FilterAppend(ok, a, [x] + b); }
      Filter(ok, s);
    }
  }

  /** What the broadcast loop did: the list it leaves and the clients it tried, in order. */
  datatype Outcome = Outcome(kept: seq<ClientId>, tried: seq<ClientId>)

  /**
   * The loop of sendMessage(Message) over the unvisited prefix `u`: it tries
   * the last element c; on success c stays (it is now behind the loop), on
   * failure mClients.remove(c) drops the FIRST occurrence of c, which may lie
   * before the loop index, and the loop moves one index down either way.
   */
  ghost function Sweep(ok: ClientId -> bool, u: seq<ClientId>): (r: Outcome)
    decreases |u|
  {
    if u == [] then Outcome([], [])
    else
      var c := u[|u| - 1];
      if ok(c) then
        var o := Sweep(ok, u[..|u| - 1]);
        Outcome(o.kept + [c], [c] + o.tried)
      else
        RemoveFirstCounts(u, c);
        var o := Sweep(ok, RemoveFirst(u, c));
        Outcome(o.kept, [c] + o.tried)
  }

  /**
   * One iteration of the loop at index i over the list `cs`: the list it
   * leaves, `Step(ok, cs, i)`, together with what the rest of the loop does,
   * accounts for the outcome of the unvisited prefix cs[..i + 1].
   */
  function Step(ok: ClientId -> bool, cs: seq<ClientId>, i: nat): seq<ClientId>
    requires i < |cs|
  {
    if ok(cs[i]) then cs else RemoveFirst(cs, cs[i])
  }

  /** The last unvisited client `c` accepted: it joins the visited suffix. */
  lemma StepDelivered(ok: ClientId -> bool, u: seq<ClientId>, f: seq<ClientId>)
    requires u != [] && ok(u[|u| - 1])
    ensures Sweep(ok, u).kept + f == Sweep(ok, u[..|u| - 1]).kept + ([u[|u| - 1]] + f)
    ensures Sweep(ok, u).tried == [u[|u| - 1]] + Sweep(ok, u[..|u| - 1]).tried
  {
    var n := |u| - 1;
    var o := Sweep(ok, u[..n]);
    assert Sweep(ok, u).kept == o.kept + [u[n]];
    AppendAssoc(o.kept, [u[n]], f);
  }

  /** The last unvisited client `c` failed: the unvisited prefix loses the first copy of `c`. */
  lemma StepFailed(ok: ClientId -> bool, u: seq<ClientId>)
    requires u != [] && !ok(u[|u| - 1])
    ensures Sweep(ok, u).kept == Sweep(ok, RemoveFirst(u, u[|u| - 1])).kept
    ensures Sweep(ok, u).tried == [u[|u| - 1]] + Sweep(ok, RemoveFirst(u, u[|u| - 1])).tried
  {
  }

  lemma StepSweep(ok: ClientId -> bool, cs: seq<ClientId>, i: nat)
    requires i < |cs|
    ensures |Step(ok, cs, i)| == if ok(cs[i]) then |cs| else |cs| - 1
    ensures Sweep(ok, cs[..i + 1]).kept + cs[i + 1..]
         == Sweep(ok, Step(ok, cs, i)[..i]).kept + Step(ok, cs, i)[i..]
    ensures Sweep(ok, cs[..i + 1]).tried == [cs[i]] + Sweep(ok, Step(ok, cs, i)[..i]).tried
  {
    var c := cs[i];
    var u, f := cs[..i + 1], cs[i + 1..];
    assert u[|u| - 1] == c && cs == u + f;
    if ok(c) {
      assert u[..|u| - 1] == cs[..i];
      assert cs[i..] == [c] + f;
      StepDelivered(ok, u, f);
    } else {
      RemoveFirstCounts(cs, c);
      RemoveFirstCounts(u, c);
      RemoveFirstAppend(u, f, c);
      var r := RemoveFirst(u, c);
      assert RemoveFirst(cs, c) == r + f;
      assert (r + f)[..i] == r;
      assert (r + f)[i..] == f;
      StepFailed(ok, u);
    }
  }

  /** The loop invariant of sendMessage(Message) survives one iteration. */
  lemma StepKeepsInvariant(ok: ClientId -> bool, all: seq<ClientId>, cs: seq<ClientId>, i: nat, tried: seq<ClientId>)
    requires i < |cs|
    requires Sweep(ok, all).kept == Sweep(ok, cs[..i + 1]).kept + cs[i + 1..]
    requires Sweep(ok, all).tried == tried + Sweep(ok, cs[..i + 1]).tried
    ensures i <= |Step(ok, cs, i)|
    ensures Sweep(ok, all).kept == Sweep(ok, Step(ok, cs, i)[..i]).kept + Step(ok, cs, i)[i..]
    ensures Sweep(ok, all).tried == (tried + [cs[i]]) + Sweep(ok, Step(ok, cs, i)[..i]).tried
  {
    StepSweep(ok, cs, i);
    var rest := Sweep(ok, Step(ok, cs, i)[..i]).tried;
    AppendAssoc(tried, [cs[i]], rest);
  }

  /** The loop makes exactly one delivery attempt per iteration, one per entry of the list. */
  lemma {:induction false} SweepTriesAll(ok: ClientId -> bool, u: seq<ClientId>)
    ensures |Sweep(ok, u).tried| == |u|
    decreases |u|
  {
    if u != [] {
      var c := u[|u| - 1];
      if ok(c) {
        SweepTriesAll(ok, u[..|u| - 1]);
      } else {
        RemoveFirstCounts(u, c);
        SweepTriesAll(ok, RemoveFirst(u, c));
      }
    }
  }

  /** Whatever the duplicates, the loop keeps exactly the clients that accept delivery, in order. */
  lemma {:induction false} SweepKeepsDelivered(ok: ClientId -> bool, u: seq<ClientId>)
    ensures Sweep(ok, u).kept == Filter(ok, u)
    decreases |u|
  {
    if u != [] {
      var n := |u| - 1;
      var c := u[n];
      assert u == u[..n] + [c];
      if ok(c) {
        SweepKeepsDelivered(ok, u[..n]);
        FilterAppend(ok, u[..n], [c]);
      } else {
        RemoveFirstCounts(u, c);
        SweepKeepsDelivered(ok, RemoveFirst(u, c));
        FilterRemoveFailing(ok, u, c);
      }
    }
  }

  /** Every client of the list is tried, and nobody else is. */
  lemma {:induction false} SweepTriesMembers(ok: ClientId -> bool, u: seq<ClientId>)
    ensures forall x :: x in Sweep(ok, u).tried <==> x in u
    decreases |u|
  {
    if u != [] {
      var n := |u| - 1;
      var c := u[n];
      if ok(c) {
        SweepTriesMembers(ok, u[..n]);
        assert u == u[..n] + [c];
      } else {
        RemoveFirstCounts(u, c);
        SweepTriesMembers(ok, RemoveFirst(u, c));
        forall x ensures x in RemoveFirst(u, c) || x == c <==> x in u {
          assert x in RemoveFirst(u, c) <==> multiset(RemoveFirst(u, c))[x] > 0;
        }
      }
    }
  }

  /**
   * In a duplicate-free list each client is tried exactly once, from the last to the first:
   * the attempts are `Reverse(u)`, whose k-th element is `u[|u| - 1 - k]` by `Seqs.ReverseAt`.
   */
  lemma {:induction false} SweepTriesOnce(ok: ClientId -> bool, u: seq<ClientId>)
    requires NoDup(u)
    ensures Sweep(ok, u).tried == Reverse(u)
    decreases |u|
  {
    if u != [] {
      var n := |u| - 1;
      if !ok(u[n]) {
        RemoveLastNoDup(u);
      }
      assert NoDup(u[..n]);
      SweepTriesOnce(ok, u[..n]);
    }
  }

  /** The delivery attempts to `cs`, in order, as log entries. */
  function Deliveries(ok: ClientId -> bool, cs: seq<ClientId>, msg: Message): (r: seq<Effect>)
    ensures |r| == |cs|
  {
    if cs == [] then [] else Deliveries(ok, cs[..|cs| - 1], msg) + [Send(cs[|cs| - 1], msg, ok(cs[|cs| - 1]))]
  }

  lemma {:induction false} DeliveriesAt(ok: ClientId -> bool, cs: seq<ClientId>, msg: Message, k: nat)
    requires k < |cs|
    ensures Deliveries(ok, cs, msg)[k] == Send(cs[k], msg, ok(cs[k]))
  {
    if k < |cs| - 1 {
      DeliveriesAt(ok, cs[..|cs| - 1], msg, k);
    }
  }

  /** A log that records one attempt per client, in order, is Deliveries. */
  lemma DeliveriesByIndex(ok: ClientId -> bool, cs: seq<ClientId>, msg: Message, log: seq<Effect>)
    requires |log| == |cs|
    requires forall k :: 0 <= k < |cs| ==> log[k] == Send(cs[k], msg, ok(cs[k]))
    ensures log == Deliveries(ok, cs, msg)
  {
    forall k | 0 <= k < |cs| ensures log[k] == Deliveries(ok, cs, msg)[k] {
      DeliveriesAt(ok, cs, msg, k);
    }
  }

  /** The log entries are exactly one attempt per listed client, each with its outcome. */
  lemma {:induction false} DeliveriesMembers(ok: ClientId -> bool, cs: seq<ClientId>, msg: Message)
    ensures forall e :: e in Deliveries(ok, cs, msg) ==>
      e.Send? && e.msg == msg && e.client in cs && e.delivered == ok(e.client)
    ensures forall c :: c in cs ==> Send(c, msg, ok(c)) in Deliveries(ok, cs, msg)
  {
    if cs != [] {
      var n := |cs| - 1;
      DeliveriesMembers(ok, cs[..n], msg);
      assert cs == cs[..n] + [cs[n]];
    }
  }

  /** The new client list and the log entries of one call of sendMessage(msg). */
  datatype Fanout = Fanout(kept: seq<ClientId>, sent: seq<Effect>)

  /** The outcome of broadcasting `msg` to `cs`: the survivors of the sweep, and its log. */
  ghost function Announce(ok: ClientId -> bool, cs: seq<ClientId>, msg: Message): Fanout
  {
    var o := Sweep(ok, cs);
    Fanout(o.kept, Deliveries(ok, o.tried, msg))
  }

  /**
   * A broadcast keeps exactly the clients that accept delivery, in their
   * order; it makes one attempt per list entry; and in a duplicate-free list
   * each member is tried once, last to first.
   */
  lemma AnnounceOutcome(ok: ClientId -> bool, cs: seq<ClientId>, msg: Message)
    ensures Announce(ok, cs, msg).kept == Filter(ok, cs)
    ensures |Announce(ok, cs, msg).sent| == |cs|
    ensures NoDup(cs) ==> Announce(ok, cs, msg).sent == Deliveries(ok, Reverse(cs), msg)
  {
    SweepKeepsDelivered(ok, cs);
    SweepTriesAll(ok, cs);
    if NoDup(cs) {
      SweepTriesOnce(ok, cs);
    }
  }

  /**
   * Every log entry of a broadcast is an attempt to deliver `msg` to a
   * member of the list, with that member's outcome, and every member is tried.
   */
  lemma AnnounceAttempts(ok: ClientId -> bool, cs: seq<ClientId>, msg: Message)
    ensures forall e :: e in Announce(ok, cs, msg).sent ==>
      e.Send? && e.msg == msg && e.client in cs && e.delivered == ok(e.client)
    ensures forall c :: c in cs ==> Send(c, msg, ok(c)) in Announce(ok, cs, msg).sent
  {
    SweepTriesMembers(ok, cs);
    DeliveriesMembers(ok, Sweep(ok, cs).tried, msg);
  }

  /** Broadcasting to a single client: one attempt; the client stays exactly when it accepts. */
  lemma AnnounceOne(ok: ClientId -> bool, c: ClientId, msg: Message)
    ensures Announce(ok, [c], msg) == Fanout(if ok(c) then [c] else [], [Send(c, msg, ok(c))])
  {
    AnnounceOutcome(ok, [c], msg);
    assert NoDup([c]);
    assert Reverse([c]) == [c];
    assert Deliveries(ok, [c], msg) == [Send(c, msg, ok(c))] by {
      assert [c][..0] == [];
    }
    assert Filter(ok, [c]) == if ok(c) then [c] else [] by {
      assert [c][1..] == [];
    }
  }
}
