// The few string operations the modelled code uses.
module Text {
  import opened Wrappers

  // strings.Index: the first place `sub` starts.
  function Index(s: string, sub: string): (r: Option<nat>)
    ensures r.Some? ==> r.value + |sub| <= |s|
  {
    IndexFrom(s, sub, 0)
  }

  function IndexFrom(s: string, sub: string, from: nat): (r: Option<nat>)
    requires from <= |s|
    ensures r.Some? ==> r.value + |sub| <= |s|
    decreases |s| - from
  {
    if sub <= s[from..] then Some(from)
    else if from == |s| then None
    else IndexFrom(s, sub, from + 1)
  }

  ghost predicate IsIndex(s: string, sub: string, from: nat, r: Option<nat>) {
    && (r.Some? ==>
          from <= r.value && r.value + |sub| <= |s| && s[r.value..r.value + |sub|] == sub && sub <= s[r.value..])
    && (forall i :: from <= i < (if r.Some? then r.value else |s| + 1) ==> !(sub <= s[i..]))
  }

  lemma {:induction false} IndexIs(s: string, sub: string, from: nat)
    requires from <= |s|
    ensures IsIndex(s, sub, from, IndexFrom(s, sub, from))
    decreases |s| - from
  {
    if !(sub <= s[from..]) && from < |s| {
      IndexIs(s, sub, from + 1);
    }
  }

  lemma IndexIsUnique(s: string, sub: string, i: nat)
    requires IsIndex(s, sub, 0, Some(i))
    ensures Index(s, sub) == Some(i)
  {
    IndexIs(s, sub, 0);
  }

  lemma SplitAt(s: string, sub: string)
    requires Index(s, sub).Some?
    ensures var i := Index(s, sub).value; s == s[..i] + sub + s[i + |sub|..]
  {
    IndexIs(s, sub, 0);
  }

  // Whatever is written after `sub`, its first place stays: an earlier one
  // would lie in text that did not change.
  lemma IndexStays(s: string, sub: string, tail: string)
    requires Index(s, sub).Some?
    ensures Index(s[..Index(s, sub).value] + sub + tail, sub) == Index(s, sub)
  {
    var i := Index(s, sub).value;
    IndexIs(s, sub, 0);
    var t := s[..i] + sub + tail;
    assert t[..i + |sub|] == s[..i + |sub|];
    forall j | 0 <= j < i ensures sub <= t[j..] <==> sub <= s[j..] {
      assert t[j..][..|sub|] == t[..i + |sub|][j..j + |sub|];
      assert s[j..][..|sub|] == s[..i + |sub|][j..j + |sub|];
    }
    assert t[i..][..|sub|] == sub;
    IndexIsUnique(t, sub, i);
  }

  // unicode.IsSpace.
  predicate IsSpace(c: char) {
    c in {'\t', '\n', '\U{000B}', '\U{000C}', '\r', ' ', '\U{0085}', '\U{00A0}', '\U{1680}', '\U{2028}', '\U{2029}',
          '\U{202F}', '\U{205F}', '\U{3000}'} || '\U{2000}' <= c <= '\U{200A}'
  }

  function TrimLeft(s: string, cut: char -> bool): string {
    if s == "" || !cut(s[0]) then s else TrimLeft(s[1..], cut)
  }

  function TrimRight(s: string, cut: char -> bool): string {
    if s == "" || !cut(s[|s| - 1]) then s else TrimRight(s[..|s| - 1], cut)
  }

  function Trim(s: string, cut: char -> bool): string {
    TrimRight(TrimLeft(s, cut), cut)
  }

  function TrimSpace(s: string): string {
    Trim(s, IsSpace)
  }

  lemma {:induction false} TrimLeftIs(s: string, cut: char -> bool)
    ensures var r := TrimLeft(s, cut);
      && |r| <= |s| && r == s[|s| - |r|..]
      && (r == "" || !cut(r[0]))
      && (forall i :: 0 <= i < |s| - |r| ==> cut(s[i]))
  {
    if s != "" && cut(s[0]) {
      var rest, r := s[1..], TrimLeft(s[1..], cut);
      TrimLeftIs(rest, cut);
      assert s[|s| - |r|..] == rest[|rest| - |r|..];
      forall i | 0 <= i < |s| - |r| ensures cut(s[i]) {
        assert i > 0 ==> s[i] == rest[i - 1];
      }
    }
  }

  lemma {:induction false} TrimRightIs(s: string, cut: char -> bool)
    ensures var r := TrimRight(s, cut);
      r <= s && (r == "" || !cut(r[|r| - 1])) && (forall i :: |r| <= i < |s| ==> cut(s[i]))
  {
    if s != "" && cut(s[|s| - 1]) {
      TrimRightIs(s[..|s| - 1], cut);
    }
  }

  lemma TrimSpacePart(s: string)
    ensures forall c :: c in TrimSpace(s) ==> c in s
  {
    TrimLeftIs(s, IsSpace);
    TrimRightIs(TrimLeft(s, IsSpace), IsSpace);
  }

  // Trimming leaves nothing exactly when there is nothing but cut characters.
  lemma TrimmedAway(s: string, cut: char -> bool)
    ensures Trim(s, cut) == "" <==> forall i :: 0 <= i < |s| ==> cut(s[i])
  {
    var left := TrimLeft(s, cut);
    TrimLeftIs(s, cut);
    TrimRightIs(left, cut);
    if left != "" {
      assert s[|s| - |left|] == left[0];
    }
  }

  // ---- Lines ----

  // strings.Split(s, "\n").
  function Split(s: string): (lines: seq<string>)
    ensures |lines| > 0
    ensures forall line :: line in lines ==> '\n' !in line
  {
    if s == "" then [""]
    else
      var rest := Split(s[1..]);
      if s[0] == '\n' then [""] + rest else [[s[0]] + rest[0]] + rest[1..]
  }

  // strings.Join(lines, "\n").
  function Join(lines: seq<string>): string {
    if lines == [] then "" else if |lines| == 1 then lines[0] else lines[0] + "\n" + Join(lines[1..])
  }

  lemma {:induction false} JoinSplit(s: string)
    ensures Join(Split(s)) == s
  {
    if s != "" {
      JoinSplit(s[1..]);
      var rest := Split(s[1..]);
      if s[0] == '\n' {
        assert Split(s)[1..] == rest;
      } else {
        assert Split(s)[1..] == rest[1..];
        assert |rest| == 1 ==> Join(rest) == rest[0];
      }
    }
  }

  lemma {:induction false} SplitLine(line: string)
    requires '\n' !in line
    ensures Split(line) == [line]
  {
    if line != "" {
      assert line[0] in line && [line[0]] + line[1..] == line;
      SplitLine(line[1..]);
    }
  }

  lemma {:induction false} SplitFirst(line: string, rest: string)
    requires '\n' !in line
    ensures Split(line + "\n" + rest) == [line] + Split(rest)
  {
    var s := line + "\n" + rest;
    if line == "" {
      assert s[1..] == rest;
    } else {
      assert s[1..] == line[1..] + "\n" + rest;
      assert line[0] in line && s[0] == line[0] && [line[0]] + line[1..] == line;
      SplitFirst(line[1..], rest);
      assert ([line[1..]] + Split(rest))[1..] == Split(rest);
    }
  }

  lemma {:induction false} SplitJoin(lines: seq<string>)
    requires |lines| > 0 && forall line :: line in lines ==> '\n' !in line
    ensures Split(Join(lines)) == lines
  {
    if |lines| == 1 {
      SplitLine(lines[0]);
    } else {
      SplitJoin(lines[1..]);
      SplitFirst(lines[0], Join(lines[1..]));
    }
  }

  // ---- Fields ----

  // strings.Split(s, sep) for a separator of one character.
  function SplitOn(s: string, sep: char): (parts: seq<string>)
    ensures |parts| > 0
  {
    if s == "" then [""]
    else
      var rest := SplitOn(s[1..], sep);
      if s[0] == sep then [""] + rest else [[s[0]] + rest[0]] + rest[1..]
  }

  // strings.SplitN(s, sep, n): the last of n parts is not split any more.
  function SplitN(s: string, sep: char, n: nat): (parts: seq<string>)
    requires n > 0
    ensures 0 < |parts| <= n
    decreases |s|
  {
    if n == 1 then [s]
    else if s == "" then [""]
    else if s[0] == sep then [""] + SplitN(s[1..], sep, n - 1)
    else
      var rest := SplitN(s[1..], sep, n);
      [[s[0]] + rest[0]] + rest[1..]
  }

  // The two agree unless the limit is reached.
  lemma {:induction false} SplitNIs(s: string, sep: char, n: nat)
    requires n > 0
    ensures |SplitOn(s, sep)| < n ==> SplitN(s, sep, n) == SplitOn(s, sep)
    ensures |SplitOn(s, sep)| >= n ==> |SplitN(s, sep, n)| == n
    decreases |s|
  {
    if n > 1 && s != "" {
      if s[0] == sep {
        SplitNIs(s[1..], sep, n - 1);
      } else {
        SplitNIs(s[1..], sep, n);
      }
    }
  }
}
