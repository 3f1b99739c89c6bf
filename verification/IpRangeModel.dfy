/**
  Ranges of IPv4 addresses and groups of them, from which addresses are taken one by one or in batches. An address is a
  32-bit number; counters of the program are taken modulo their width.
*/
module IpRangeModel {
  const BROADCAST := 0xffff_ffff
  const WIDTH := 0x1_0000_0000

  /** `begin` to `end`, both included; empty when `begin` is past `end`. */
  datatype Range = Range(begin: int, end: int)

  predicate WellFormed(r: Range) {
    0 <= r.begin <= BROADCAST && 0 <= r.end < BROADCAST && r.begin <= r.end + 1
  }

  /** The constructor: the smaller end first, and the highest address left out so that counting up can stop. */
  function MakeRange(a: int, b: int): Range {
    var begin, end := if a > b then b else a, if a > b then a else b;
    Range(begin, if end == BROADCAST then BROADCAST - 1 else end)
  }

  predicate HasNext(r: Range) {
    r.begin <= r.end
  }

  /** `ipLongBegin_++` */
  function Advance(r: Range): Range {
    r.(begin := (r.begin + 1) % WIDTH)
  }

  /** `getIpNumber`, in 32 bits. */
  function IpNumber(r: Range): nat {
    (r.end - r.begin + 1) % WIDTH
  }

  /** The addresses of a range, in order. */
  function Addresses(r: Range): seq<int> {
    seq(if r.begin <= r.end then r.end - r.begin + 1 else 0, i => r.begin + i)
  }

  /** Either order of the ends gives the same range: the addresses between them but for the highest of all. */
  lemma MakeRangeCovers(a: int, b: int)
    requires 0 <= a <= BROADCAST && 0 <= b <= BROADCAST
    ensures MakeRange(a, b) == MakeRange(b, a) && WellFormed(MakeRange(a, b))
    ensures forall x :: x in Addresses(MakeRange(a, b)) <==> (a <= x <= b || b <= x <= a) && x != BROADCAST
  {
    var r := MakeRange(a, b);
    forall x | HasNext(r) && r.begin <= x <= r.end
      ensures x in Addresses(r)
    {
      assert Addresses(r)[x - r.begin] == x;
    }
  }

  /** No counter of a range wraps around. */
  lemma NoWrap(r: Range)
    requires WellFormed(r)
    ensures IpNumber(r) == |Addresses(r)|
    ensures HasNext(r) ==> Advance(r).begin == r.begin + 1 && WellFormed(Advance(r))
    ensures HasNext(r) ==> Addresses(r) == [r.begin] + Addresses(Advance(r))
  {
  }

  datatype Group = Group(ranges: seq<Range>, number: int)

  const EMPTY := Group([], 0)

  /** The addresses of all ranges, one range after the other. */
  function All(ranges: seq<Range>): seq<int> {
    if ranges == [] then [] else Addresses(ranges[0]) + All(ranges[1..])
  }

  /** The count is the number of addresses, and no listed range is empty. */
  predicate Sound(g: Group) {
    && (forall i :: 0 <= i < |g.ranges| ==> WellFormed(g.ranges[i]) && HasNext(g.ranges[i]))
    && g.number == |All(g.ranges)|
  }

  function Add(g: Group, r: Range): Group {
    if HasNext(r) then Group(g.ranges + [r], g.number + IpNumber(r)) else g
  }

  /** The front range moves on, and is dropped when it is used up. */
  function Take(g: Group): Group
    requires g.ranges != []
  {
    var front := Advance(g.ranges[0]);
    Group(if HasNext(front) then g.ranges[0 := front] else g.ranges[1..], g.number - 1)
  }

  lemma {:induction false} AllAppend(a: seq<Range>, b: seq<Range>)
    ensures All(a + b) == All(a) + All(b)
    decreases |a|
  {
    if a == [] {
      assert a + b == b;
    } else {
      assert (a + b)[1..] == a[1..] + b;
      AllAppend(a[1..], b);
    }
  }

  lemma AddKeeps(g: Group, r: Range)
    requires Sound(g) && WellFormed(r)
    ensures Sound(Add(g, r)) && All(Add(g, r).ranges) == All(g.ranges) + Addresses(r)
  {
    NoWrap(r);
    AllAppend(g.ranges, [r]);
    assert All([r]) == Addresses(r) + [];
  }

  /** Taking an address takes the first, and leaves the group sound. */
  lemma TakeTakesFirst(g: Group)
    requires Sound(g) && g.ranges != []
    ensures Sound(Take(g)) && All(g.ranges) == [g.ranges[0].begin] + All(Take(g).ranges)
  {
    var front := g.ranges[0];
    NoWrap(front);
    if HasNext(Advance(front)) {
      assert g.ranges[0 := Advance(front)] == [Advance(front)] + g.ranges[1..];
    } else {
      assert Addresses(Advance(front)) == [];
    }
    assert All(g.ranges) == [front.begin] + (Addresses(Advance(front)) + All(g.ranges[1..]));
  }

  lemma EmptyIsDone(g: Group)
    requires Sound(g)
    ensures g.number > 0 <==> g.ranges != []
    ensures g.ranges == [] <==> All(g.ranges) == []
  {
    if g.ranges != [] {
      TakeTakesFirst(g);
    }
  }

  /** The group after `n` addresses are taken. */
  function Taken(g: Group, n: nat): Group
    decreases n
  {
    if n == 0 || g.ranges == [] then g else Taken(Take(g), n - 1)
  }

  lemma {:induction false} TakenTakesFirst(g: Group, n: nat)
    requires Sound(g) && n <= |All(g.ranges)|
    ensures Sound(Taken(g, n)) && All(Taken(g, n).ranges) == All(g.ranges)[n..]
    decreases n
  {
    EmptyIsDone(g);
    if n > 0 {
      TakeTakesFirst(g);
      TakenTakesFirst(Take(g), n - 1);
    }
  }

  // ---- any mix of operations ----

  /** A single address; a batch of up to so many, drained; a batch of all, drained; another range. */
  datatype Event = Next | Batch(stepSize: int) | Rest | More(range: Range)

  /** The caller asks for a single address only while there is one. */
  predicate Possible(g: Group, e: Event) {
    match e
    case Next => g.number > 0
    case More(r) => WellFormed(r)
    case _ => true
  }

  /** How many addresses an operation yields. */
  function Yields(g: Group, e: Event): nat {
    var left := |All(g.ranges)|;
    match e
    case Next => 1
    case Batch(n) => if n <= 0 then 0 else if n < left then n else left
    case Rest => left
    case More(_) => 0
  }

  function After(g: Group, e: Event): Group {
    if e.More? then Add(g, e.range) else Taken(g, Yields(g, e))
  }

  predicate IsRun(g: Group, events: seq<Event>)
    decreases |events|
  {
    events == [] || (Possible(g, events[0]) && IsRun(After(g, events[0]), events[1..]))
  }

  function Final(g: Group, events: seq<Event>): Group
    decreases |events|
  {
    if events == [] then g else Final(After(g, events[0]), events[1..])
  }

  /** What the operations yield; an operation yields the first addresses of the group. */
  function Yielded(g: Group, events: seq<Event>): seq<int>
    decreases |events|
  {
    if events == [] then []
    else
      var n, all := Yields(g, events[0]), All(g.ranges);
      (if n <= |all| then all[..n] else all) + Yielded(After(g, events[0]), events[1..])
  }

  /** The addresses of the ranges added on the way. */
  function Added(events: seq<Event>): seq<int>
    decreases |events|
  {
    if events == [] then []
    else (if events[0].More? then Addresses(events[0].range) else []) + Added(events[1..])
  }

  lemma EventConserves(g: Group, e: Event)
    requires Sound(g) && Possible(g, e)
    ensures Sound(After(g, e)) && Yields(g, e) <= |All(g.ranges)|
    ensures All(g.ranges) + (if e.More? then Addresses(e.range) else []) ==
            All(g.ranges)[..Yields(g, e)] + All(After(g, e).ranges)
  {
    EmptyIsDone(g);
    if e.More? {
      AddKeeps(g, e.range);
    } else {
      TakenConserves(g, Yields(g, e));
    }
  }

  lemma TakenConserves(g: Group, n: nat)
    requires Sound(g) && n <= |All(g.ranges)|
    ensures Sound(Taken(g, n)) && All(g.ranges) == All(g.ranges)[..n] + All(Taken(g, n).ranges)
  {
    TakenTakesFirst(g, n);
  }

  /**
    Nothing is lost, repeated or reordered: what any mix of operations yields, followed by what is left, is what there
    was, followed by what was added.
   */
  lemma {:induction false} RunsConserve(g: Group, events: seq<Event>)
    requires Sound(g) && IsRun(g, events)
    ensures Sound(Final(g, events))
    ensures Yielded(g, events) + All(Final(g, events).ranges) == All(g.ranges) + Added(events)
    decreases |events|
  {
    if events != [] {
      var e, g' := events[0], After(g, events[0]);
      EventConserves(g, e);
      RunsConserve(g', events[1..]);
      Regrouped(All(g.ranges)[..Yields(g, e)], Yielded(g', events[1..]), All(Final(g', events[1..]).ranges),
                All(g'.ranges), Added(events[1..]), All(g.ranges), if e.More? then Addresses(e.range) else []);
    }
  }

  lemma Regrouped(now: seq<int>, later: seq<int>, left: seq<int>, rest: seq<int>, added: seq<int>, all: seq<int>,
                  more: seq<int>)
    requires later + left == rest + added && now + rest == all + more
    ensures (now + later) + left == all + (more + added)
  {
    assert (now + later) + left == now + (later + left);
    assert now + (rest + added) == (now + rest) + added;
    assert (all + more) + added == all + (more + added);
  }
}
