/**
  The text of an address range: two addresses with a dash or a tilde between them, of which the second may leave out
  leading sections; an address with asterisks; or a single address.
*/
module IpRangeText {
  import R = IpRangeModel

  predicate Allowed(c: char) {
    '0' <= c <= '9' || c == '*' || c == '.' || c == '-'
  }

  lemma AllowedAre(c: char)
    ensures Allowed(c) <==> c in "0123456789*.-"
  {
  }

  /** Tildes become dashes, and what is not allowed is dropped. */
  function Clean(s: string): string {
    if s == "" then ""
    else (if s[0] == '~' then "-" else if Allowed(s[0]) then [s[0]] else "") + Clean(s[1..])
  }

  /** The position of the first `c`, or the length. */
  function Find(s: string, c: char): (pos: nat)
    ensures pos <= |s| && c !in s[..pos] && (pos < |s| ==> s[pos] == c)
  {
    if s == "" || s[0] == c then 0 else
      var rest := Find(s[1..], c);
      assert s[..rest + 1] == [s[0]] + s[1..][..rest];
      rest + 1
  }

  /** The parts between the dots; at least one. */
  function Split(s: string): (sections: seq<string>)
    ensures |sections| > 0
    decreases |s|
  {
    var pos := Find(s, '.');
    if pos == |s| then [s] else [s[..pos]] + Split(s[pos + 1..])
  }

  function Join(sections: seq<string>): string {
    if sections == [] then "" else if |sections| == 1 then sections[0] else sections[0] + "." + Join(sections[1..])
  }

  /** Every asterisk is replaced. */
  function Replace(s: string, digits: string): string {
    if s == "" then "" else (if s[0] == '*' then digits else [s[0]]) + Replace(s[1..], digits)
  }

  /** The second address, completed by leading sections of the first if it has fewer. */
  function Complete(begin: string, end: string): string {
    var first, second := Split(begin), Split(end);
    if |second| < |first| then Join(first[..|first| - |second|] + second) else end
  }

  /** The two ends of a range. */
  function SplitClean(s: string): (string, string) {
    var dash := Find(s, '-');
    if dash < |s| then (s[..dash], Complete(s[..dash], s[dash + 1..]))
    else if Find(s, '*') < |s| then (Replace(s, "0"), Replace(s, "255"))
    else (s, s)
  }

  function SplitRange(s: string): (string, string) {
    SplitClean(Clean(s))
  }

  /** `splitIpRange` */
  method SplitIpRange(ipRangeString: string) returns (begin: string, end: string)
    ensures (begin, end) == SplitRange(ipRangeString)
  {
    var s := Clean(ipRangeString);
    var pos := Find(s, '-');
    if pos != |s| {
      begin := s[..pos];
      end := s[pos + 1..];
      var beginSections, endSections := Split(begin), Split(end);
      if |endSections| < |beginSections| {
        var i := |beginSections| - |endSections|;
        endSections := beginSections[..i] + endSections;
        end := Join(endSections);
      }
      return;
    }
    pos := Find(s, '*');
    if pos != |s| {
      return Replace(s, "0"), Replace(s, "255");
    }
    return s, s;
  }

  // ---- what cleaning ignores ----

  lemma {:induction false} CleanAppend(s: string, t: string)
    ensures Clean(s + t) == Clean(s) + Clean(t)
    decreases |s|
  {
    if s == "" {
      assert s + t == t;
    } else {
      assert (s + t)[1..] == s[1..] + t;
      CleanAppend(s[1..], t);
    }
  }

  /** A tilde counts as a dash, and a character outside the allowed ones as nothing, wherever it stands. */
  lemma NotationIgnored(s: string, t: string, c: char)
    ensures SplitRange(s + "~" + t) == SplitRange(s + "-" + t)
    ensures !Allowed(c) && c != '~' ==> SplitRange(s + [c] + t) == SplitRange(s + t)
  {
    CleanAppend(s + "~", t);
    CleanAppend(s, "~");
    CleanAppend(s + "-", t);
    CleanAppend(s, "-");
    CleanAppend(s + [c], t);
    CleanAppend(s, [c]);
    CleanAppend(s, t);
    assert Clean("~") == "-" + Clean("~"[1..]) && Clean("-") == "-" + Clean("-"[1..]);
    assert Clean([c]) == (if c == '~' then "-" else if Allowed(c) then [c] else "") + Clean([c][1..]);
    assert Clean(s) + "" == Clean(s);
  }

  // ---- addresses ----

  /** The sections of an address: no dots in them, no dashes, and nothing that cleaning drops. */
  predicate Section(s: string) {
    forall i :: 0 <= i < |s| ==> Allowed(s[i]) && s[i] != '.' && s[i] != '-'
  }

  predicate Sections(sections: seq<string>) {
    |sections| > 0 && forall i :: 0 <= i < |sections| ==> Section(sections[i])
  }

  lemma FindAt(s: string, c: char, t: string)
    requires c !in s
    ensures Find(s + [c] + t, c) == |s|
  {
    var whole := s + [c] + t;
    assert whole[|s|] == c && whole[..|s|] == s;
    forall k | |s| < k <= |whole|
      ensures c in whole[..k]
    {
      assert whole[..k][|s|] == c;
    }
  }

  lemma {:induction false} SplitJoin(sections: seq<string>)
    requires Sections(sections)
    ensures Split(Join(sections)) == sections
    decreases |sections|
  {
    var first := sections[0];
    assert Section(first);
    if |sections| == 1 {
      assert Join(sections) == first;
      assert '.' !in first;
    } else {
      var s := Join(sections);
      FindAt(first, '.', Join(sections[1..]));
      assert s == first + ['.'] + Join(sections[1..]);
      assert s[..|first|] == first && s[|first| + 1..] == Join(sections[1..]);
      SplitJoin(sections[1..]);
    }
  }

  lemma {:induction false} CleanSection(s: string)
    requires forall i :: 0 <= i < |s| ==> Allowed(s[i])
    ensures Clean(s) == s
    decreases |s|
  {
    if s != "" {
      CleanSection(s[1..]);
    }
  }

  lemma {:induction false} JoinIsClean(sections: seq<string>)
    requires Sections(sections)
    ensures '-' !in Join(sections) && Clean(Join(sections)) == Join(sections)
    ensures forall i :: 0 <= i < |Join(sections)| ==> Allowed(Join(sections)[i])
    decreases |sections|
  {
    assert Section(sections[0]);
    if |sections| > 1 {
      JoinIsClean(sections[1..]);
    }
    CleanSection(Join(sections));
  }

  lemma DashSplits(x: string, y: string)
    requires '-' !in x
    requires forall i :: 0 <= i < |x| ==> Allowed(x[i])
    requires forall i :: 0 <= i < |y| ==> Allowed(y[i])
    ensures SplitRange(x + "-" + y) == (x, Complete(x, y))
  {
    var s := x + "-" + y;
    CleanSection(s);
    FindAt(x, '-', y);
    assert s[..|x|] == x && s[|x| + 1..] == y;
  }

  lemma CompleteJoin(a: seq<string>, b: seq<string>)
    requires Sections(a) && Sections(b)
    ensures Complete(Join(a), Join(b)) == Join(a[..if |b| < |a| then |a| - |b| else 0] + b)
  {
    SplitJoin(a);
    SplitJoin(b);
    assert a[..0] + b == b;
  }

  /**
    Two addresses with a dash between: the first is the beginning, and the end is the second, with as many leading
    sections of the first as it has fewer.
   */
  lemma DashCompletes(a: seq<string>, b: seq<string>)
    requires Sections(a) && Sections(b)
    ensures SplitRange(Join(a) + "-" + Join(b)) ==
            (Join(a), Join(a[..if |b| < |a| then |a| - |b| else 0] + b))
  {
    JoinIsClean(a);
    JoinIsClean(b);
    DashSplits(Join(a), Join(b));
    CompleteJoin(a, b);
  }

  /** Two dotted quads, the second cut down to its last `k` sections. */
  lemma QuadCompletes(a: seq<string>, b: seq<string>, k: nat)
    requires Sections(a) && Sections(b) && |a| == |b| == 4 && 1 <= k <= 4
    ensures SplitRange(Join(a) + "-" + Join(b[4 - k..])) == (Join(a), Join(a[..4 - k] + b[4 - k..]))
  {
    DashCompletes(a, b[4 - k..]);
  }

  /** The range constructed from a text; `ip2long` is the conversion of an address by the C library. */
  function Constructed(s: string, ip2long: string -> int): R.Range {
    var (begin, end) := SplitRange(s);
    R.MakeRange(ip2long(begin), ip2long(end))
  }

  /** Of two full addresses the order does not matter. */
  lemma OrderIgnored(a: seq<string>, b: seq<string>, ip2long: string -> int)
    requires Sections(a) && Sections(b) && |a| == |b|
    ensures Constructed(Join(a) + "-" + Join(b), ip2long) == Constructed(Join(b) + "-" + Join(a), ip2long)
    ensures var r := R.MakeRange(ip2long(Join(a)), ip2long(Join(b)));
            Constructed(Join(a) + "-" + Join(b), ip2long) == r
  {
    DashCompletes(a, b);
    DashCompletes(b, a);
    assert a[..0] + b == b && b[..0] + a == a;
  }

  // ---- asterisks ----

  function ReplaceEach(sections: seq<string>, digits: string): (r: seq<string>)
    ensures |r| == |sections| && forall i :: 0 <= i < |r| ==> r[i] == Replace(sections[i], digits)
  {
    if sections == [] then [] else [Replace(sections[0], digits)] + ReplaceEach(sections[1..], digits)
  }

  lemma {:induction false} ReplaceAppend(s: string, t: string, digits: string)
    ensures Replace(s + t, digits) == Replace(s, digits) + Replace(t, digits)
    decreases |s|
  {
    if s == "" {
      assert s + t == t;
    } else {
      assert (s + t)[1..] == s[1..] + t;
      ReplaceAppend(s[1..], t, digits);
    }
  }

  lemma {:induction false} ReplaceJoin(sections: seq<string>, digits: string)
    requires |sections| > 0
    ensures Replace(Join(sections), digits) == Join(ReplaceEach(sections, digits))
    decreases |sections|
  {
    if |sections| > 1 {
      ReplaceAppend(sections[0] + ".", Join(sections[1..]), digits);
      ReplaceAppend(sections[0], ".", digits);
      assert Replace(".", digits) == "." + Replace("."[1..], digits);
      ReplaceJoin(sections[1..], digits);
      assert ReplaceEach(sections, digits)[1..] == ReplaceEach(sections[1..], digits);
    }
  }

  /** An address with asterisks: section by section, they are 0 in the beginning and 255 in the end. */
  lemma AsterisksSpan(a: seq<string>)
    requires Sections(a) && '*' in Join(a)
    ensures SplitRange(Join(a)) == (Join(ReplaceEach(a, "0")), Join(ReplaceEach(a, "255")))
  {
    JoinIsClean(a);
    ReplaceJoin(a, "0");
    ReplaceJoin(a, "255");
  }

  /** A single address is both ends. */
  lemma SingleIsBoth(a: seq<string>)
    requires Sections(a) && '*' !in Join(a)
    ensures SplitRange(Join(a)) == (Join(a), Join(a))
  {
    JoinIsClean(a);
  }
}
