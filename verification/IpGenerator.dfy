/**
  The generator of one range and the group of generators. A coroutine that yields addresses is a method that returns
  what a caller who drains it receives, together with the state the caller finds at each suspension.
*/
module IpGenerator {
  import opened IpRangeModel

  const INT_MAX := 0x7fff_ffff

  /** More addresses than a signed 32-bit number can count. */
  predicate TooManyToCount(r: Range) {
    |Addresses(r)| > INT_MAX
  }

  /** The lower half of all addresses, 0.0.0.0 to 127.255.255.255, is one too many; without its first it is not. */
  lemma HalfIsTooMany()
    ensures TooManyToCount(MakeRange(0, 0x7fff_ffff)) && !TooManyToCount(MakeRange(1, 0x7fff_ffff))
  {
    NoWrap(MakeRange(0, 0x7fff_ffff));
    NoWrap(MakeRange(1, 0x7fff_ffff));
  }

  /** What was yielded, and the range that is left. */
  ghost predicate Produced(all: seq<int>, ips: seq<int>, r: Range) {
    WellFormed(r) && ips + Addresses(r) == all
  }

  lemma OneMore(all: seq<int>, ips: seq<int>, r: Range)
    requires Produced(all, ips, r) && HasNext(r)
    ensures Produced(all, ips + [r.begin], Advance(r)) && Advance(r) == Range(r.begin + 1, r.end)
  {
    NoWrap(r);
    assert (ips + [r.begin]) + Addresses(Advance(r)) == ips + Addresses(r);
  }

  lemma AllProduced(all: seq<int>, ips: seq<int>, r: Range)
    requires Produced(all, ips, r) && !HasNext(r)
    ensures Addresses(r) == [] && ips == all
  {
  }

  class Generator {
    var ipLongBegin: int
    var ipLongEnd: int

    constructor (begin: int, end: int)
      ensures Value() == MakeRange(begin, end)
    {
      var b, e := begin, end;
      if b > e {
        b, e := e, b;
      }
      if e == BROADCAST {
        e := BROADCAST - 1;
      }
      ipLongBegin, ipLongEnd := b, e;
    }

    ghost function Value(): Range
      reads this
    {
      Range(ipLongBegin, ipLongEnd)
    }

    method Next() returns (ip: int)
      requires WellFormed(Value()) && HasNext(Value())
      modifies this`ipLongBegin
      ensures WellFormed(Value()) && ipLongBegin == old(ipLongBegin) + 1
      ensures old(Addresses(Value())) == [ip] + Addresses(Value())
    {
      NoWrap(Value());
      ip := ipLongBegin;
      ipLongBegin := Advance(Range(ipLongBegin, ipLongEnd)).begin;
    }

    /**
      All that is left. The step counter of the coroutine is a signed 32-bit number that nothing reads; it overflows
      exactly on ranges of more than 2^31 - 1 addresses.
     */
    method GenIpRange() returns (ips: seq<int>, overflows: bool)
      requires WellFormed(Value())
      modifies this`ipLongBegin
      ensures ips == old(Addresses(Value())) && Addresses(Value()) == [] && WellFormed(Value())
      ensures overflows <==> old(TooManyToCount(Value()))
    {
      ghost var all := Addresses(Value());
      var i := 0;
      ips, overflows := [], false;
      while ipLongBegin <= ipLongEnd
        invariant Produced(all, ips, Value())
        invariant i == |ips| && (overflows <==> i > INT_MAX)
        decreases ipLongEnd - ipLongBegin
      {
        OneMore(all, ips, Value());
        ips := ips + [ipLongBegin];
        overflows := overflows || i == INT_MAX;
        i := i + 1;
        ipLongBegin := Advance(Range(ipLongBegin, ipLongEnd)).begin;
      }
      AllProduced(all, ips, Value());
    }

    /** At most `stepSize` addresses. */
    method GenIpRangeStep(stepSize: int) returns (ips: seq<int>)
      requires WellFormed(Value()) && stepSize <= INT_MAX
      modifies this`ipLongBegin
      ensures Produced(old(Addresses(Value())), ips, Value())
      ensures |ips| < stepSize ==> Addresses(Value()) == []
      ensures ips == [] || |ips| <= stepSize
    {
      ghost var all := Addresses(Value());
      var i := 0;
      ips := [];
      while i < stepSize && ipLongBegin <= ipLongEnd
        invariant Produced(all, ips, Value())
        invariant i == |ips| && (0 < i ==> i <= stepSize)
        decreases stepSize - i
      {
        OneMore(all, ips, Value());
        ips := ips + [ipLongBegin];
        i := i + 1;
        ipLongBegin := Advance(Range(ipLongBegin, ipLongEnd)).begin;
      }
      if i < stepSize {
        AllProduced(all, ips, Value());
      }
    }
  }

  /**
    What a caller saw of a batch: the first addresses of `all`, and at each a sound group with the rest, the address
    just yielded included or, with `after` 1, not.
   */
  ghost predicate Saw(all: seq<int>, ips: seq<int>, seen: seq<Group>, after: nat) {
    && |seen| == |ips| && after <= 1 && |ips| <= |all| && ips == all[..|ips|]
    && forall k :: 0 <= k < |seen| ==> Sound(seen[k]) && All(seen[k].ranges) == all[k + after..]
  }

  lemma SawMore(all: seq<int>, ips: seq<int>, seen: seq<Group>, after: nat, ip: int, g: Group)
    requires Saw(all, ips, seen, after) && |ips| < |all| && Sound(g)
    requires ip == all[|ips|] && All(g.ranges) == all[|ips| + after..]
    ensures Saw(all, ips + [ip], seen + [g], after)
  {
  }

  lemma SplitsFirst(all: seq<int>, k: nat, ip: int, rest: seq<int>)
    requires k <= |all| && all[k..] == [ip] + rest
    ensures k < |all| && all[k] == ip && all[k + 1..] == rest
  {
    assert |all[k..]| == 1 + |rest|;
    assert all[k] == all[k..][0] == ip;
    assert all[k + 1..] == all[k..][1..];
    assert ([ip] + rest)[1..] == rest;
  }

  /** Draining a generator of the lower half of all addresses overflows the counter. */
  method DrainHalf() returns (ips: seq<int>, overflows: bool)
    ensures overflows && |ips| == 0x8000_0000
  {
    var generator := new Generator(0, 0x7fff_ffff);
    HalfIsTooMany();
    NoWrap(generator.Value());
    ips, overflows := generator.GenIpRange();
  }

  /** Sound, but for a front range that may be used up. */
  predicate Draining(g: Group) {
    g.ranges != [] && WellFormed(g.ranges[0]) && g.number == |All(g.ranges)|
    && forall i :: 1 <= i < |g.ranges| ==> WellFormed(g.ranges[i]) && HasNext(g.ranges[i])
  }

  /** The front range moves on and stays in its place. */
  lemma FrontMoves(g: Group)
    requires Draining(g) && HasNext(g.ranges[0])
    ensures Sound(g)
    ensures var g' := Group(g.ranges[0 := Advance(g.ranges[0])], g.number - 1);
            Draining(g') && All(g.ranges) == [g.ranges[0].begin] + All(g'.ranges)
  {
    var front := g.ranges[0];
    NoWrap(front);
    assert g.ranges[0 := Advance(front)][1..] == g.ranges[1..];
    assert All(g.ranges) == [front.begin] + (Addresses(Advance(front)) + All(g.ranges[1..]));
  }

  lemma DrainsOne(all: seq<int>, ips: seq<int>, seen: seq<Group>, g: Group)
    requires Draining(g) && HasNext(g.ranges[0])
    requires Saw(all, ips, seen, 0) && All(g.ranges) == all[|ips|..]
    ensures var g' := Group(g.ranges[0 := Advance(g.ranges[0])], g.number - 1);
            && Draining(g') && g'.ranges[0] == Range(g.ranges[0].begin + 1, g.ranges[0].end)
            && Saw(all, ips + [g.ranges[0].begin], seen + [g], 0) && All(g'.ranges) == all[|ips| + 1..]
  {
    var begin := g.ranges[0].begin;
    FrontMoves(g);
    NoWrap(g.ranges[0]);
    SplitsFirst(all, |ips|, begin, All(g.ranges[0 := Advance(g.ranges[0])]));
    SawMore(all, ips, seen, 0, begin, g);
  }

  class GeneratorGroup {
    var ipNumber: int
    var generators: seq<Range>

    constructor ()
      ensures Value() == EMPTY
    {
      ipNumber, generators := 0, [];
    }

    ghost function Value(): Group
      reads this
    {
      Group(generators, ipNumber)
    }

    method AddIpRange(r: Range)
      modifies this
      ensures Value() == Add(old(Value()), r)
    {
      if HasNext(r) {
        ipNumber := ipNumber + IpNumber(r);
        generators := generators + [r];
      }
    }

    method Clear()
      modifies this
      ensures Value() == EMPTY
    {
      ipNumber, generators := 0, [];
    }

    method HasMore() returns (more: bool)
      requires Sound(Value())
      ensures more <==> All(generators) != []
    {
      more := ipNumber > 0;
      EmptyIsDone(Value());
    }

    method Next() returns (ip: int)
      requires Sound(Value()) && ipNumber > 0
      modifies this
      ensures Value() == Take(old(Value())) && Sound(Value())
      ensures old(All(generators)) == [ip] + All(generators)
    {
      EmptyIsDone(Value());
      TakeTakesFirst(Value());
      ip := generators[0].begin;
      var front := Advance(generators[0]);
      generators := generators[0 := front];
      ipNumber := ipNumber - 1;
      if !HasNext(front) {
        assert old(generators)[0 := front][1..] == old(generators)[1..];
        generators := generators[1..];
      }
    }

    /**
      A batch, drained. At each suspension the address just yielded is already taken, the count is right, and no listed
      generator is empty.
     */
    method GenIpRangeStep(stepSize: int) returns (ips: seq<int>, ghost seen: seq<Group>)
      requires Sound(Value())
      modifies this
      ensures Sound(Value()) && Value() == After(old(Value()), Batch(stepSize))
      ensures |ips| == Yields(old(Value()), Batch(stepSize)) && Saw(old(All(generators)), ips, seen, 1)
    {
      ghost var all, start := All(generators), Value();
      ips, seen := [], [];
      var i := 0;
      EmptyIsDone(Value());
      while i < stepSize && ipNumber > 0
        invariant Sound(Value()) && Value() == Taken(start, i)
        invariant i == |ips| && (0 < i ==> i <= stepSize)
        invariant Saw(all, ips, seen, 1) && All(generators) == all[i..]
        decreases stepSize - i
      {
        EmptyIsDone(Value());
        TakenNext(start, i);
        var ip := Next();
        SplitsFirst(all, i, ip, All(generators));
        SawMore(all, ips, seen, 1, ip, Value());
        ips, seen := ips + [ip], seen + [Value()];
        i := i + 1;
      }
      EmptyIsDone(Value());
    }

    /**
      Everything, drained. At a suspension the address just yielded still counts as left: it is taken when the caller
      comes back.
     */
    method GenIpRange() returns (ips: seq<int>, ghost seen: seq<Group>)
      requires Sound(Value())
      modifies this
      ensures Value() == EMPTY == After(old(Value()), Rest)
      ensures ips == old(All(generators)) && Saw(ips, ips, seen, 0)
    {
      ghost var all := All(generators);
      ips, seen := [], [];
      RestEmpties(Value());
      while generators != []
        invariant Sound(Value()) && Saw(all, ips, seen, 0) && All(generators) == all[|ips|..]
        decreases |generators|
      {
        ghost var count := |generators|;
        while generators[0].begin <= generators[0].end
          invariant Draining(Value()) && |generators| == count
          invariant Saw(all, ips, seen, 0) && All(generators) == all[|ips|..]
          decreases generators[0].end - generators[0].begin
        {
          DrainsOne(all, ips, seen, Value());
          ips, seen := ips + [generators[0].begin], seen + [Value()];
          ipNumber := ipNumber - 1;
          generators := generators[0 := Advance(generators[0])];
        }
        FrontDropped(Value());
        generators := generators[1..];
      }
    }
  }

  lemma FrontDropped(g: Group)
    requires Draining(g) && !HasNext(g.ranges[0])
    ensures Sound(Group(g.ranges[1..], g.number)) && All(g.ranges[1..]) == All(g.ranges)
  {
    assert Addresses(g.ranges[0]) == [];
  }

  lemma RestEmpties(g: Group)
    requires Sound(g)
    ensures After(g, Rest) == EMPTY
  {
    TakenTakesFirst(g, |All(g.ranges)|);
    EmptyIsDone(After(g, Rest));
  }

  lemma {:induction false} TakenNext(g: Group, n: nat)
    requires Sound(g) && n <= |All(g.ranges)| && Taken(g, n).ranges != []
    ensures Taken(g, n + 1) == Take(Taken(g, n))
    decreases n
  {
    if n > 0 && g.ranges != [] {
      TakeTakesFirst(g);
      TakenNext(Take(g), n - 1);
    }
  }
}
