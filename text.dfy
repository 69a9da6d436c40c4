/** The few Python `str` operations the modelled code relies on, on `seq<char>`. */
module Text {

  /** `s.startswith(p)` */
  predicate StartsWith(s: string, p: string) {
    |p| <= |s| && s[..|p|] == p
  }

  /** `p in s` for strings: `p` occurs in `s` at some position. */
  predicate OccursAt(s: string, p: string, i: nat) {
    i + |p| <= |s| && s[i..i + |p|] == p
  }

  /** `p in s`, computed by scanning `s` from the left. */
  function Contains(s: string, p: string): (b: bool)
    ensures b <==> exists i: nat :: OccursAt(s, p, i)
    decreases |s|
  {
    if StartsWith(s, p) then
      assert OccursAt(s, p, 0);
      true
    else if s == [] then
      false
    else
      var b := Contains(s[1..], p);
      assert forall i: nat :: OccursAt(s[1..], p, i) <==> OccursAt(s, p, i + 1) by {
        forall i: nat ensures OccursAt(s[1..], p, i) <==> OccursAt(s, p, i + 1) {
          if i + 1 + |p| <= |s| {
            assert s[1..][i..i + |p|] == s[i + 1..i + 1 + |p|];
          }
        }
      }
      assert forall i: nat :: OccursAt(s, p, i) ==> i == 0 || OccursAt(s[1..], p, i - 1);
      b
  }

  /** `s.split(c)` for a one-character separator: the text between separators, left to right. */
  function Split(s: string, c: char): (parts: seq<string>)
    ensures |parts| >= 1
    ensures forall k :: 0 <= k < |parts| ==> c !in parts[k]
    decreases |s|
  {
    if s == [] then [""]
    else
      var rest := Split(s[1..], c);
      if s[0] == c then [""] + rest
      else [[s[0]] + rest[0]] + rest[1..]
  }

  /** `c.join(parts)` for a one-character separator. */
  function Join(parts: seq<string>, c: char): string
    requires |parts| >= 1
  {
    if |parts| == 1 then parts[0] else parts[0] + [c] + Join(parts[1..], c)
  }

  /** Splitting and joining again on the same separator gives the original text back. */
  lemma {:induction false} JoinSplit(s: string, c: char)
    ensures Join(Split(s, c), c) == s
  {
    if s != [] {
      JoinSplit(s[1..], c);
      var rest := Split(s[1..], c);
      if s[0] != c {
        var parts := Split(s, c);
        assert parts[0] == [s[0]] + rest[0];
        if |rest| > 1 {
          assert parts[1..] == rest[1..];
        }
      }
    }
  }

  /** The first piece of `s.split(c)` is `f` exactly when `s` is `f` or begins with `f` and then `c`. */
  lemma {:induction false} SplitHead(s: string, c: char, f: string)
    requires c !in f
    ensures Split(s, c)[0] == f <==> s == f || StartsWith(s, f + [c])
    decreases |s|
  {
    if s != [] && s[0] != c && f != [] {
      SplitHead(s[1..], c, f[1..]);
      assert Split(s, c)[0] == [s[0]] + Split(s[1..], c)[0];
      if StartsWith(s[1..], f[1..] + [c]) && s[0] == f[0] {
        assert s[..|f| + 1] == [s[0]] + s[1..][..|f[1..] + [c]|];
        assert f + [c] == [f[0]] + (f[1..] + [c]);
      }
      if StartsWith(s, f + [c]) {
        assert s[1..][..|f[1..] + [c]|] == s[1..|f| + 1];
        assert (f + [c])[1..] == f[1..] + [c];
      }
      if s == f {
        assert s[1..] == f[1..];
      }
    } else if s != [] && s[0] == c && f != [] {
      assert (f + [c])[0] == f[0];
    }
  }

  /** Sequence bookkeeping of the inductive step of `SplitConcat`. */
  lemma PrefixFirstPart(x: char, whole: seq<string>, left: seq<string>, right: seq<string>)
    requires |left| >= 1 && whole == left + right
    ensures [[x] + whole[0]] + whole[1..] == [[x] + left[0]] + left[1..] + right
  {
  }

  /** Splitting at a separator between `a` and `b` splits each side on its own. */
  lemma {:induction false} SplitConcat(a: string, c: char, b: string)
    ensures Split(a + [c] + b, c) == Split(a, c) + Split(b, c)
    decreases |a|
  {
    var s := a + [c] + b;
    if a == [] {
      assert s[0] == c && s[1..] == b;
    } else {
      assert s[0] == a[0] && s[1..] == a[1..] + [c] + b;
      SplitConcat(a[1..], c, b);
      if a[0] != c {
        PrefixFirstPart(a[0], Split(s[1..], c), Split(a[1..], c), Split(b, c));
      }
    }
  }

  /** Text without the separator splits into itself. */
  lemma {:induction false} NoSeparatorSplit(s: string, c: char)
    requires c !in s
    ensures Split(s, c) == [s]
    decreases |s|
  {
    if s != [] {
      assert c !in s[1..] by {
        forall i | 0 <= i < |s[1..]| ensures s[1..][i] != c {
          assert s[1..][i] == s[i + 1];
        }
      }
      NoSeparatorSplit(s[1..], c);
      assert s == [s[0]] + s[1..];
    }
  }

  /** `s.replace(a, b)` for single characters: every `a` becomes `b`. */
  function ReplaceChar(s: string, a: char, b: char): (r: string)
    ensures |r| == |s|
    ensures forall i :: 0 <= i < |s| ==> r[i] == (if s[i] == a then b else s[i])
  {
    seq(|s|, i requires 0 <= i < |s| => if s[i] == a then b else s[i])
  }

  /** The characters Python's `str.isspace` accepts. */
  predicate IsSpace(c: char) {
    || c in {' ', '\t', '\n', '\r', '\U{B}', '\U{C}', '\U{85}', '\U{A0}', '\U{1680}',
             '\U{2028}', '\U{2029}', '\U{202F}', '\U{205F}', '\U{3000}'}
    || '\U{1C}' <= c <= '\U{1F}'
    || '\U{2000}' <= c <= '\U{200A}'
  }

  /** `s.rstrip()`: the longest prefix of `s` that does not end in white space. */
  function RStrip(s: string): (r: string)
    ensures StartsWith(s, r)
    ensures r == [] || !IsSpace(r[|r| - 1])
    ensures forall i :: |r| <= i < |s| ==> IsSpace(s[i])
    decreases |s|
  {
    if s != [] && IsSpace(s[|s| - 1]) then
      var r := RStrip(s[..|s| - 1]);
      assert s[..|s| - 1][..|r|] == s[..|r|];
      r
    else s
  }
}
