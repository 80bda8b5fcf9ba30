/** The parts of Python's `str` and `posixpath` that the core relies on:
    `str.split()` on whitespace runs, `str.split(sep)`, `str.strip()`,
    ASCII `str.lower()`, and `os.path.join` / `dirname` / `isabs`. */
module PyStr {

  /** `str.isspace()` for one character, as CPython defines it. */
  predicate IsSpace(c: char)
  {
    || ('\t' <= c <= '\r')
    || ('\U{1c}' <= c <= '\U{1f}')
    || c == ' ' || c == '\U{85}' || c == '\U{a0}' || c == '\U{1680}'
    || ('\U{2000}' <= c <= '\U{200a}')
    || c == '\U{2028}' || c == '\U{2029}' || c == '\U{202f}' || c == '\U{205f}'
    || c == '\U{3000}'
  }

  predicate NoSpace(s: string)
  {
    forall i :: 0 <= i < |s| ==> !IsSpace(s[i])
  }

  /** The longest prefix of `s` free of whitespace. */
  function Word(s: string): (w: string)
    ensures w <= s && NoSpace(w)
    ensures |w| < |s| ==> IsSpace(s[|w|])
  {
    if s == [] || IsSpace(s[0]) then [] else [s[0]] + Word(s[1..])
  }

  /** `s.split()`: the maximal runs of non-whitespace, in order. */
  function SplitWs(s: string): (r: seq<string>)
    ensures forall i :: 0 <= i < |r| ==> r[i] != [] && NoSpace(r[i])
    decreases |s|
  {
    if s == [] then []
    else if IsSpace(s[0]) then SplitWs(s[1..])
    else
      var w := Word(s);
      [w] + SplitWs(s[|w|..])
  }

  function LStrip(s: string): (r: string)
    ensures r == [] || !IsSpace(r[0])
    ensures |r| <= |s| && r == s[|s| - |r|..]
  {
    if s != [] && IsSpace(s[0]) then LStrip(s[1..]) else s
  }

  function RStrip(s: string): (r: string)
    ensures r == [] || !IsSpace(r[|r| - 1])
    ensures r <= s
  {
    if s != [] && IsSpace(s[|s| - 1]) then RStrip(s[..|s| - 1]) else s
  }

  /** `s.strip()`. */
  function Strip(s: string): (r: string)
    ensures r == [] || (!IsSpace(r[0]) && !IsSpace(r[|r| - 1]))
  {
    var l := LStrip(s);
    var r := RStrip(l);
    assert r != [] ==> r[0] == l[0];
    r
  }

  /** `sep` occurs in `s` starting at index `i`. */
  predicate StartsAt(s: string, i: int, sep: string)
  {
    0 <= i && i + |sep| <= |s| && s[i..i + |sep|] == sep
  }

  /** `s.split(sep)` for a non-empty separator: cut at every occurrence,
      scanning left to right without overlap. */
  function SplitOn(s: string, sep: string): (r: seq<string>)
    requires sep != []
    ensures r != []
    decreases |s|
  {
    if |s| < |sep| then [s]
    else if s[..|sep|] == sep then [[]] + SplitOn(s[|sep|..], sep)
    else
      var rest := SplitOn(s[1..], sep);
      [[s[0]] + rest[0]] + rest[1..]
  }

  /** `sep.join(ps)`, the inverse of SplitOn. */
  function JoinWith(ps: seq<string>, sep: string): string
    requires ps != []
  {
    if |ps| == 1 then ps[0] else ps[0] + sep + JoinWith(ps[1..], sep)
  }

  lemma {:induction false} JoinWithCons(c: string, ps: seq<string>, sep: string)
    requires ps != []
    ensures JoinWith([c + ps[0]] + ps[1..], sep) == c + JoinWith(ps, sep)
  {
    var qs := [c + ps[0]] + ps[1..];
    assert qs[1..] == ps[1..];
  }

  /** Splitting and re-joining gives the string back. */
  lemma {:induction false} SplitOnJoin(s: string, sep: string)
    requires sep != []
    ensures JoinWith(SplitOn(s, sep), sep) == s
    decreases |s|
  {
    if |s| < |sep| {
    } else if s[..|sep|] == sep {
      var rest := SplitOn(s[|sep|..], sep);
      SplitOnJoin(s[|sep|..], sep);
      assert ([[]] + rest)[1..] == rest;
      assert s == s[..|sep|] + s[|sep|..];
    } else {
      var rest := SplitOn(s[1..], sep);
      SplitOnJoin(s[1..], sep);
      JoinWithCons([s[0]], rest, sep);
      assert s == [s[0]] + s[1..];
    }
  }

  /** No occurrence of `sep` lies inside `s`. */
  predicate Absent(s: string, sep: string)
  {
    forall i :: 0 <= i < |s| ==> !StartsAt(s, i, sep)
  }

  /** No occurrence of `sep` lies inside the last piece of a split. */
  lemma {:induction false} SplitOnLast(s: string, sep: string)
    requires sep != []
    ensures Absent(SplitOn(s, sep)[|SplitOn(s, sep)| - 1], sep)
    decreases |s|
  {
    var ps := SplitOn(s, sep);
    if |s| < |sep| {
    } else if s[..|sep|] == sep {
      var rest := SplitOn(s[|sep|..], sep);
      SplitOnLast(s[|sep|..], sep);
      assert ps[|ps| - 1] == rest[|rest| - 1];
    } else {
      var rest := SplitOn(s[1..], sep);
      SplitOnLast(s[1..], sep);
      if |rest| == 1 {
        SplitOnJoin(s[1..], sep);
        assert [s[0]] + rest[0] == s;
        forall i | 0 <= i < |s| ensures !StartsAt(s, i, sep) {
          if i > 0 && StartsAt(s, i, sep) {
            assert s[i..i + |sep|] == rest[0][i - 1..i - 1 + |sep|];
            assert StartsAt(rest[0], i - 1, sep);
          }
        }
      } else {
        assert ps[|ps| - 1] == rest[|rest| - 1];
      }
    }
  }

  /** When `sep` does not occur in `s`, splitting yields `[s]`. */
  lemma {:induction false} SplitOnAbsent(s: string, sep: string)
    requires sep != []
    requires forall i :: 0 <= i < |s| ==> !StartsAt(s, i, sep)
    ensures SplitOn(s, sep) == [s]
    decreases |s|
  {
    if |s| < |sep| {
    } else {
      assert !StartsAt(s, 0, sep);
      forall i | 0 <= i < |s[1..]| ensures !StartsAt(s[1..], i, sep) {
        assert !StartsAt(s, i + 1, sep);
        assert i + 1 + |sep| <= |s| ==> s[1..][i..i + |sep|] == s[i + 1..i + 1 + |sep|];
      }
      SplitOnAbsent(s[1..], sep);
      assert [s[0]] + s[1..] == s;
    }
  }

  /** The first cut falls right after `a` when no occurrence of `sep` starts
      inside `a`. */
  lemma {:induction false} SplitOnFirst(a: string, b: string, sep: string)
    requires sep != []
    requires forall i :: 0 <= i < |a| ==> !StartsAt(a + sep + b, i, sep)
    ensures SplitOn(a + sep + b, sep) == [a] + SplitOn(b, sep)
    decreases |a|
  {
    var s := a + sep + b;
    if a == [] {
      assert s == sep + b;
      assert s[..|sep|] == sep && s[|sep|..] == b;
    } else {
      assert !StartsAt(s, 0, sep);
      assert s[1..] == a[1..] + sep + b;
      forall i | 0 <= i < |a[1..]| ensures !StartsAt(a[1..] + sep + b, i, sep) {
        assert !StartsAt(s, i + 1, sep);
        assert s[1..][i..i + |sep|] == s[i + 1..i + 1 + |sep|];
      }
      SplitOnFirst(a[1..], b, sep);
      assert [a[0]] + a[1..] == a;
    }
  }

  function LowerChar(c: char): char
  {
    if 'A' <= c <= 'Z' then (c as int + 32) as char else c
  }

  /** `s.lower()` on ASCII letters. */
  function Lower(s: string): (r: string)
    ensures |r| == |s|
    ensures forall i :: 0 <= i < |s| ==> r[i] == LowerChar(s[i])
  {
    seq(|s|, i requires 0 <= i < |s| => LowerChar(s[i]))
  }

  predicate EndsWith(s: string, suffix: string)
  {
    |suffix| <= |s| && s[|s| - |suffix|..] == suffix
  }

  /** `os.path.isabs` on POSIX. */
  predicate IsAbs(p: string)
  {
    p != [] && p[0] == '/'
  }

  /** `os.path.join(a, b)` on POSIX. */
  function Join(a: string, b: string): (r: string)
    ensures IsAbs(b) ==> r == b
    ensures !IsAbs(b) ==> a <= r && EndsWith(r, b)
  {
    if IsAbs(b) then b
    else if a == [] || a[|a| - 1] == '/' then a + b
    else a + "/" + b
  }

  /** Index just after the last '/' of `p`, 0 when there is none. */
  function AfterLastSlash(p: string): (i: nat)
    ensures i <= |p|
    ensures i > 0 ==> p[i - 1] == '/'
    ensures forall j :: i <= j < |p| ==> p[j] != '/'
  {
    if p == [] then 0
    else if p[|p| - 1] == '/' then |p|
    else AfterLastSlash(p[..|p| - 1])
  }

  predicate AllSlashes(s: string)
  {
    forall i :: 0 <= i < |s| ==> s[i] == '/'
  }

  function RStripSlashes(s: string): (r: string)
    ensures r <= s
  {
    if s != [] && s[|s| - 1] == '/' then RStripSlashes(s[..|s| - 1]) else s
  }

  /** `os.path.dirname(p)` on POSIX: everything up to the last '/', with
      trailing slashes removed unless the head is only slashes. */
  function Dirname(p: string): (r: string)
    ensures r <= p
    ensures '/' !in p ==> r == []
  {
    var head := p[..AfterLastSlash(p)];
    if head != [] && !AllSlashes(head) then RStripSlashes(head) else head
  }
}
