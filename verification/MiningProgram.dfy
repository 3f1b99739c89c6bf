/**
  The list of mining programs a WhatsMiner may run. Page paths contain the name of the program, so a script tries one
  name after another, the last of the list first.
*/
module MiningProgramModel {
  import opened Wrappers

  const DEFAULT_PROGRAMS: seq<string> := ["btminer", "cgminer"]

  /** What Lua's pattern class `%s` matches. */
  predicate IsSpace(c: char) {
    c == ' ' || '\t' <= c <= '\r'
  }

  function TrimLeft(s: string): string {
    if s != [] && IsSpace(s[0]) then TrimLeft(s[1..]) else s
  }

  function TrimRight(s: string): string {
    if s != [] && IsSpace(s[|s| - 1]) then TrimRight(s[..|s| - 1]) else s
  }

  function Trim(s: string): string {
    TrimRight(TrimLeft(s))
  }

  predicate AllSpace(s: string) {
    forall i :: 0 <= i < |s| ==> IsSpace(s[i])
  }

  /** White space is what C calls so. */
  lemma SpacesAre(c: char)
    ensures IsSpace(c) <==> c in [' ', '\t', '\n', '\U{0B}', '\U{0C}', '\r']
  {
  }

  lemma {:induction false} TrimLeftCuts(s: string) returns (left: string)
    ensures s == left + TrimLeft(s) && AllSpace(left)
    ensures TrimLeft(s) != "" ==> !IsSpace(TrimLeft(s)[0])
    decreases |s|
  {
    left := "";
    if s != [] && IsSpace(s[0]) {
      var rest := TrimLeftCuts(s[1..]);
      left := [s[0]] + rest;
    }
  }

  lemma {:induction false} TrimRightCuts(s: string) returns (right: string)
    ensures s == TrimRight(s) + right && AllSpace(right)
    ensures TrimRight(s) != "" ==> !IsSpace(TrimRight(s)[|TrimRight(s)| - 1])
    decreases |s|
  {
    right := "";
    if s != [] && IsSpace(s[|s| - 1]) {
      var rest := TrimRightCuts(s[..|s| - 1]);
      right := rest + [s[|s| - 1]];
    }
  }

  /** Trimming cuts off the white space at both ends, all of it and nothing else. */
  lemma TrimCuts(s: string) returns (left: string, right: string)
    ensures s == left + Trim(s) + right && AllSpace(left) && AllSpace(right)
    ensures Trim(s) != "" ==> !IsSpace(Trim(s)[0]) && !IsSpace(Trim(s)[|Trim(s)| - 1])
  {
    left := TrimLeftCuts(s);
    right := TrimRightCuts(TrimLeft(s));
  }

  /** The list without the first occurrence of a value. */
  function RemoveByValue(s: seq<string>, value: string): seq<string> {
    if s == [] then []
    else if s[0] == value then s[1..]
    else [s[0]] + RemoveByValue(s[1..], value)
  }

  datatype Programs = Programs(all: seq<string>, working: seq<string>, current: Option<string>)

  function SetBest(all: seq<string>, best: Option<string>): seq<string> {
    if best.None? || Trim(best.value) == "" then all
    else RemoveByValue(all, Trim(best.value)) + [Trim(best.value)]
  }

  function Reset(p: Programs): Programs {
    Programs(p.all, p.all, None)
  }

  /** `getNext`: takes the last name of the list, or none when the list is empty. */
  function TakeNext(p: Programs): Programs {
    if p.working == [] then p.(current := None)
    else p.(working := p.working[..|p.working| - 1], current := Some(p.working[|p.working| - 1]))
  }

  function Initial(all: seq<string>, best: Option<string>): Programs {
    Reset(Programs(SetBest(all, best), [], None))
  }

  /** The names that `getNext` returns while `hasNext` holds. */
  function Tried(p: Programs): seq<string>
    decreases |p.working|
  {
    if p.working == [] then [] else [TakeNext(p).current.value] + Tried(TakeNext(p))
  }

  lemma {:induction false} TriedBackwards(p: Programs)
    ensures |Tried(p)| == |p.working|
    ensures forall i :: 0 <= i < |p.working| ==> Tried(p)[i] == p.working[|p.working| - 1 - i]
    decreases |p.working|
  {
    if p.working != [] {
      TriedBackwards(TakeNext(p));
    }
  }

  lemma {:induction false} TriedOnceEach(p: Programs)
    ensures multiset(Tried(p)) == multiset(p.working)
    decreases |p.working|
  {
    if p.working != [] {
      TriedOnceEach(TakeNext(p));
      assert p.working == TakeNext(p).working + [TakeNext(p).current.value];
    }
  }

  lemma {:induction false} RemovesOne(s: seq<string>, value: string)
    ensures multiset(RemoveByValue(s, value)) == multiset(s) - multiset{value}
    decreases |s|
  {
    if s != [] {
      assert s == [s[0]] + s[1..];
      if s[0] != value {
        RemovesOne(s[1..], value);
        assert multiset(s) == multiset{s[0]} + multiset(s[1..]);
      }
    }
  }

  /** It is the first occurrence that goes, and the others keep their order. */
  lemma {:induction false} RemovesFirst(before: seq<string>, value: string, after: seq<string>)
    requires value !in before
    ensures RemoveByValue(before + [value] + after, value) == before + after
    decreases |before|
  {
    var s := before + [value] + after;
    if before == [] {
      assert s[1..] == after;
    } else {
      assert s[0] == before[0] && s[1..] == before[1..] + [value] + after;
      RemovesFirst(before[1..], value, after);
      assert before + after == [before[0]] + (before[1..] + after);
    }
  }

  lemma {:induction false} RemovesNothingElse(s: seq<string>, value: string)
    requires value !in s
    ensures RemoveByValue(s, value) == s
    decreases |s|
  {
    if s != [] {
      RemovesNothingElse(s[1..], value);
    }
  }

  lemma LastIsTriedFirst(p: Programs, others: seq<string>, last: string)
    requires p.working == others + [last]
    ensures |Tried(p)| > 0 && Tried(p)[0] == last && multiset(Tried(p)[1..]) == multiset(others)
  {
    TriedOnceEach(TakeNext(p));
    assert TakeNext(p).working == others;
    assert Tried(p) == [last] + Tried(TakeNext(p));
  }

  /**
    A best program is tried first and only once; the others are tried just as often as they are listed. Without one the
    list is what it was.
   */
  lemma BestIsTriedFirst(all: seq<string>, best: Option<string>)
    ensures var tried := Tried(Initial(all, best));
            if best.None? || Trim(best.value) == "" then multiset(tried) == multiset(all)
            else |tried| > 0 && tried[0] == Trim(best.value)
                 && multiset(tried[1..]) == multiset(all) - multiset{Trim(best.value)}
  {
    if best.None? || Trim(best.value) == "" {
      TriedOnceEach(Initial(all, best));
    } else {
      var b := Trim(best.value);
      RemovesOne(all, b);
      LastIsTriedFirst(Initial(all, best), RemoveByValue(all, b), b);
    }
  }

  /** A WhatsMiner's script has two or three names to try: the two defaults and a best one that is neither. */
  lemma DefaultsAndBest(best: Option<string>)
    ensures var n := |Initial(DEFAULT_PROGRAMS, best).all|;
            n == if best.None? || Trim(best.value) in DEFAULT_PROGRAMS + [""] then 2 else 3
  {
    if best.Some? {
      var b := Trim(best.value);
      assert DEFAULT_PROGRAMS[1..] == ["cgminer"] && DEFAULT_PROGRAMS[1..][1..] == [];
      assert "btminer" != "cgminer" by {
        assert "btminer"[0] != "cgminer"[0];
      }
      assert RemoveByValue(DEFAULT_PROGRAMS[1..], b) == if b == "cgminer" then [] else ["cgminer"];
    }
  }

  class MiningProgram {
    var programs: seq<string>
    var workingPrograms: seq<string>
    var currentProgram: Option<string>

    constructor (programs: seq<string>, bestProgram: Option<string>)
      ensures Value() == Initial(programs, bestProgram)
    {
      this.programs, this.workingPrograms, this.currentProgram := programs, [], None;
      new;
      SetBestProgram(bestProgram);
      ResetPrograms();
    }

    ghost function Value(): Programs
      reads this
    {
      Programs(programs, workingPrograms, currentProgram)
    }

    method SetBestProgram(program: Option<string>)
      modifies this`programs
      ensures programs == SetBest(old(programs), program)
    {
      if program.None? {
        return;
      }
      var name := Trim(program.value);
      if name == "" {
        return;
      }
      RemoveProgram(name);
      programs := programs + [name];
    }

    method RemoveProgram(value: string)
      modifies this`programs
      ensures programs == RemoveByValue(old(programs), value)
    {
      var k := 0;
      while k < |programs|
        invariant 0 <= k <= |programs|
        invariant programs == old(programs) && value !in programs[..k]
      {
        if programs[k] == value {
          RemovesFirst(programs[..k], value, programs[k + 1..]);
          assert programs == programs[..k] + [value] + programs[k + 1..];
          programs := programs[..k] + programs[k + 1..];
          return;
        }
        assert programs[..k + 1] == programs[..k] + [programs[k]];
        k := k + 1;
      }
      assert programs[..k] == programs;
      RemovesNothingElse(programs, value);
    }

    method ResetPrograms()
      modifies this`workingPrograms, this`currentProgram
      ensures Value() == Reset(old(Value()))
    {
      workingPrograms := programs;
      currentProgram := None;
    }

    method HasNext() returns (has: bool)
      ensures has <==> Tried(Value()) != []
    {
      has := |workingPrograms| > 0;
    }

    method GetNext() returns (program: Option<string>)
      modifies this`workingPrograms, this`currentProgram
      ensures Value() == TakeNext(old(Value())) && program == currentProgram
    {
      if workingPrograms == [] {
        currentProgram := None;
      } else {
        currentProgram := Some(workingPrograms[|workingPrograms| - 1]);
        workingPrograms := workingPrograms[..|workingPrograms| - 1];
      }
      program := currentProgram;
    }

    method GetCurrent() returns (program: Option<string>)
      ensures program == currentProgram
    {
      program := currentProgram;
    }
  }
}
