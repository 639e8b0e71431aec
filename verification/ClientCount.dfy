/**
 The attached-client counters. Counters are shared objects: the registry map holds one per session and every guard
 holds the counter of its session, so a guard can decrement it without the map. Counters are 64 bits wide and wrap.
 */
module ClientCount {
  import opened Common

  const USIZE: nat := 0x1_0000_0000_0000_0000

  /** What a 64-bit counter shows of a number. */
  function Wrapped(n: nat): nat {
    n % USIZE
  }

  lemma WrappedOneMore(n: nat)
    ensures Wrapped(n + 1) == if Wrapped(n) == USIZE - 1 then 0 else Wrapped(n) + 1
  {
  }

  lemma WrappedSum(a: nat, b: nat)
    ensures Wrapped(Wrapped(a) + Wrapped(b)) == Wrapped(a + b)
  {
  }

  lemma WrappedLow(n: nat)
    ensures AsU32(Wrapped(n)) == AsU32(n)
  {
  }

  /** Counts that fit are shown as they are. */
  lemma WrappedKeeps(n: nat)
    ensures n <= 18446744073709551615 ==> Wrapped(n) == n
  {
  }

  class Counter {
    var value: nat

    constructor ()
      ensures value == 0
    {
      value := 0;
    }

    method FetchAdd()
      modifies this
      ensures value == if old(value) == USIZE - 1 then 0 else old(value) + 1
    {
      value := if value == USIZE - 1 then 0 else value + 1;
    }

    method FetchSub()
      modifies this
      ensures value == if old(value) == 0 then USIZE - 1 else old(value) - 1
    {
      value := if value == 0 then USIZE - 1 else value - 1;
    }
  }

  class ClientGuard {
    const counter: Counter
    ghost const session: string

    constructor (counter: Counter, ghost session: string)
      ensures this.counter == counter && this.session == session
    {
      this.counter := counter;
      this.session := session;
    }
  }

  class SessionClients {
    var inner: map<string, Counter>
    ghost var live: set<ClientGuard>

    /** The guards of `session` that were not dropped yet. */
    ghost function LiveOf(session: string): set<ClientGuard>
      reads this
    {
      set g | g in live && g.session == session
    }

    ghost predicate Valid()
      reads this, inner.Values
    {
      && (forall k1, k2 | k1 in inner && k2 in inner && k1 != k2 :: inner[k1] != inner[k2])
      && (forall g | g in live :: g.session in inner && g.counter == inner[g.session])
      && (forall k | k in inner :: inner[k].value == Wrapped(|LiveOf(k)|))
    }

    constructor ()
      ensures Valid() && live == {} && inner == map[]
    {
      inner, live := map[], {};
    }

    /** `entry(session).or_insert_with(...)`. */
    method CounterOf(session: string) returns (counter: Counter)
      requires Valid()
      modifies this`inner
      ensures Valid() && session in inner && counter == inner[session]
      ensures old(inner.Keys) <= inner.Keys && fresh(inner.Values - old(inner.Values))
    {
      if session !in inner {
        counter := new Counter();
        inner := inner[session := counter];
        assert LiveOf(session) == {};
      }
      counter := inner[session];
    }

    method Attach(session: string) returns (guard: ClientGuard)
      requires Valid()
      modifies this, inner.Values
      ensures Valid() && fresh(guard) && guard.session == session
      ensures live == old(live) + {guard}
    {
      var counter := CounterOf(session);
      guard := new ClientGuard(counter, session);
      Enlist(guard);
    }

    /** The increment that makes a new guard count. */
    method Enlist(guard: ClientGuard)
      requires Valid() && guard !in live && guard.session in inner && guard.counter == inner[guard.session]
      modifies this`live, guard.counter
      ensures Valid() && live == old(live) + {guard}
    {
      ghost var was := LiveOf(guard.session);
      WrappedOneMore(|was|);
      guard.counter.FetchAdd();
      live := live + {guard};
      assert LiveOf(guard.session) == was + {guard};
      assert |LiveOf(guard.session)| == |was| + 1;
      assert forall k | k != guard.session :: LiveOf(k) == old(LiveOf(k));
    }

    /** `ClientGuard::drop`. */
    method DropGuard(guard: ClientGuard)
      requires Valid() && guard in live
      modifies this`live, guard.counter
      ensures Valid() && live == old(live) - {guard}
    {
      assert guard in LiveOf(guard.session);
      WrappedOneMore(|LiveOf(guard.session)| - 1);
      guard.counter.FetchSub();
      live := live - {guard};
      assert LiveOf(guard.session) == old(LiveOf(guard.session)) - {guard};
      assert forall k | k != guard.session :: LiveOf(k) == old(LiveOf(k));
    }

    /** The reported count is the number of live guards, cut to 32 bits. */
    method Count(session: string) returns (n: nat)
      requires Valid()
      ensures n == AsU32(|LiveOf(session)|) && (|LiveOf(session)| <= 4294967295 ==> n == |LiveOf(session)|)
    {
      AsU32Keeps(|LiveOf(session)|);
      if session in inner {
        WrappedLow(|LiveOf(session)|);
        n := AsU32(inner[session].value);
      } else {
        assert LiveOf(session) == {};
        n := 0;
      }
    }

    /** The live guards of the sessions outside `todo`. */
    ghost function Counted(todo: set<string>): set<ClientGuard>
      reads this
    {
      set g | g in live && g.session !in todo
    }

    lemma CountedGrows(todo: set<string>, k: string)
      requires k in todo
      ensures |Counted(todo - {k})| == |Counted(todo)| + |LiveOf(k)|
    {
      assert Counted(todo - {k}) == Counted(todo) + LiveOf(k);
      assert Counted(todo) !! LiveOf(k);
    }

    /** The sum over all sessions is the number of live guards, as 64 bits show it. */
    method TotalCount() returns (n: nat)
      requires Valid()
      ensures n == Wrapped(|live|) && (|live| <= 18446744073709551615 ==> n == |live|)
    {
      WrappedKeeps(|live|);
      n := 0;
      var todo := inner.Keys;
      assert Counted(todo) == {};
      while todo != {}
        invariant todo <= inner.Keys && n == Wrapped(|Counted(todo)|)
        decreases |todo|
      {
        var k :| k in todo;
        CountedGrows(todo, k);
        WrappedSum(|Counted(todo)|, |LiveOf(k)|);
        n := Wrapped(n + inner[k].value);
        todo := todo - {k};
      }
      assert Counted({}) == live;
    }
  }
}
