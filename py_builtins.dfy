/**
  The few Python built-ins the analyser relies on, written out over `string`:
  `str.strip()`, `str.split()`, `str.split('\n')`, `sub in s`, and the kinds of
  exception the analyser catches.
 */
module PyBuiltins {

  /** The Python exception kinds the analysed code can raise and then catch. */
  datatype Fault =
    | IndexError      // `line.split()[1]` on a one-token line
    | AttributeError  // `.get`, `.keys()` or `.items()` on something that is not a dict
    | TypeError       // `len(...)` of a value that has no length

  /** Python's `str.isspace()` for one character (the set `strip()` and `split()` remove). */
  predicate IsSpace(c: char) {
    || c == ' ' || c == '\t' || c == '\n' || c == '\r'
    || c == '\U{000B}' || c == '\U{000C}'
    || ('\U{001C}' <= c <= '\U{001F}')
    || c == '\U{0085}' || c == '\U{00A0}' || c == '\U{1680}'
    || ('\U{2000}' <= c <= '\U{200A}')
    || c == '\U{2028}' || c == '\U{2029}' || c == '\U{202F}' || c == '\U{205F}' || c == '\U{3000}'
  }

  /** `s.lstrip()`: the longest suffix of `s` that does not start with whitespace. */
  function TrimStart(s: string): (r: string)
    ensures |r| <= |s|
    ensures r == [] || !IsSpace(r[0])
  {
    if s != [] && IsSpace(s[0]) then TrimStart(s[1..]) else s
  }

  /** `lstrip` removes a prefix made only of whitespace. */
  lemma {:induction false} TrimStartDropsSpace(s: string)
    ensures TrimStart(s) == s[|s| - |TrimStart(s)|..]
    ensures forall i :: 0 <= i < |s| - |TrimStart(s)| ==> IsSpace(s[i])
  {
    if s != [] && IsSpace(s[0]) {
      TrimStartDropsSpace(s[1..]);
    }
  }

  /** `s.rstrip()`: the longest prefix of `s` that does not end with whitespace. */
  function TrimEnd(s: string): (r: string)
    ensures |r| <= |s|
    ensures r == [] || !IsSpace(r[|r| - 1])
  {
    if s != [] && IsSpace(s[|s| - 1]) then TrimEnd(s[..|s| - 1]) else s
  }

  /** `rstrip` removes a suffix made only of whitespace. */
  lemma {:induction false} TrimEndDropsSpace(s: string)
    ensures TrimEnd(s) == s[..|TrimEnd(s)|]
    ensures forall i :: |TrimEnd(s)| <= i < |s| ==> IsSpace(s[i])
  {
    if s != [] && IsSpace(s[|s| - 1]) {
      TrimEndDropsSpace(s[..|s| - 1]);
    }
  }

  /** `s.strip()` */
  function Strip(s: string): string {
    TrimEnd(TrimStart(s))
  }

  lemma TrimStartOfNonSpace(s: string)
    requires s == [] || !IsSpace(s[0])
    ensures TrimStart(s) == s
  {
  }

  /** Stripping a stripped line changes nothing: the analyser's `line.strip()` is a normal form. */
  lemma StripIdempotent(s: string)
    ensures Strip(Strip(s)) == Strip(s)
  {
    var t := TrimStart(s);
    var r := TrimEnd(t);
    TrimEndDropsSpace(t);
    assert r == [] || r[0] == t[0];
    TrimStartOfNonSpace(r);
  }

  /** Length of the leading run of non-whitespace characters. */
  function WordLen(s: string): (n: nat)
    ensures n <= |s|
    ensures s != [] && !IsSpace(s[0]) ==> n >= 1
  {
    if s == [] || IsSpace(s[0]) then 0 else 1 + WordLen(s[1..])
  }

  /** The leading word is a maximal run of non-whitespace characters. */
  lemma {:induction false} WordLenMaximal(s: string)
    ensures forall i :: 0 <= i < WordLen(s) ==> !IsSpace(s[i])
    ensures WordLen(s) == |s| || IsSpace(s[WordLen(s)])
  {
    if s != [] && !IsSpace(s[0]) {
      WordLenMaximal(s[1..]);
    }
  }

  /** A token of `str.split()`: non-empty and free of whitespace. */
  predicate IsToken(w: string) {
    w != [] && forall i :: 0 <= i < |w| ==> !IsSpace(w[i])
  }

  /** `s.split()`: the maximal runs of non-whitespace characters, in order. */
  function Split(s: string): seq<string>
    decreases |s|
  {
    var t := TrimStart(s);
    if t == [] then []
    else
      var n := WordLen(t);
      [t[..n]] + Split(t[n..])
  }

  /** Every piece `str.split()` returns is a token. */
  lemma {:induction false} SplitGivesTokens(s: string)
    ensures forall k :: 0 <= k < |Split(s)| ==> IsToken(Split(s)[k])
    decreases |s|
  {
    var t := TrimStart(s);
    if t != [] {
      var n := WordLen(t);
      WordLenMaximal(t);
      SplitGivesTokens(t[n..]);
      assert Split(s) == [t[..n]] + Split(t[n..]);
    }
  }

  /** The non-whitespace characters of `s`, in order. */
  function NonSpace(s: string): string {
    if s == [] then []
    else if IsSpace(s[0]) then NonSpace(s[1..])
    else [s[0]] + NonSpace(s[1..])
  }

  function Concat(ws: seq<string>): string {
    if ws == [] then [] else ws[0] + Concat(ws[1..])
  }

  lemma {:induction false} NonSpaceAppend(a: string, b: string)
    ensures NonSpace(a + b) == NonSpace(a) + NonSpace(b)
    decreases |a|
  {
    if a != [] {
      assert (a + b)[1..] == a[1..] + b;
      NonSpaceAppend(a[1..], b);
    } else {
      assert a + b == b;
    }
  }

  lemma {:induction false} NonSpaceOfToken(a: string)
    requires forall i :: 0 <= i < |a| ==> !IsSpace(a[i])
    ensures NonSpace(a) == a
  {
    if a != [] {
      NonSpaceOfToken(a[1..]);
    }
  }

  /** Leading whitespace holds no non-whitespace character. */
  lemma {:induction false} NonSpaceTrimStart(s: string)
    ensures NonSpace(TrimStart(s)) == NonSpace(s)
  {
    if s != [] && IsSpace(s[0]) {
      NonSpaceTrimStart(s[1..]);
    }
  }

  /** The non-whitespace characters of a string are its leading word, then those of the rest. */
  lemma NonSpaceWord(t: string)
    ensures NonSpace(t) == t[..WordLen(t)] + NonSpace(t[WordLen(t)..])
  {
    var n := WordLen(t);
    WordLenMaximal(t);
    assert t == t[..n] + t[n..];
    NonSpaceAppend(t[..n], t[n..]);
    NonSpaceOfToken(t[..n]);
  }

  /**
    `str.split()` loses exactly the whitespace: gluing its tokens back together
    gives the non-whitespace characters of the input, in order.
   */
  lemma {:induction false} SplitKeepsNonSpace(s: string)
    ensures Concat(Split(s)) == NonSpace(s)
    decreases |s|
  {
    var t := TrimStart(s);
    NonSpaceTrimStart(s);
    if t != [] {
      var n := WordLen(t);
      NonSpaceWord(t);
      SplitKeepsNonSpace(t[n..]);
      var toks := Split(s);
      assert toks == [t[..n]] + Split(t[n..]);
      assert toks[1..] == Split(t[n..]);
    }
  }

  /** `t in s` for strings: `t` is a prefix of `s` or of one of its suffixes. */
  predicate Contains(s: string, t: string)
    decreases |s|
  {
    t <= s || (s != [] && Contains(s[1..], t))
  }

  /** `t` occurs in `s` starting at index `i`. */
  predicate OccursAt(s: string, t: string, i: int) {
    0 <= i <= |s| - |t| && s[i..i + |t|] == t
  }

  /** An occurrence past the first character is an occurrence in the tail, one index earlier. */
  lemma OccursInTail(s: string, t: string, i: int)
    requires OccursAt(s, t, i) && i >= 1
    ensures OccursAt(s[1..], t, i - 1)
  {
    var u := s[1..];
    assert u[i - 1..] == s[i..];
    assert u[i - 1..][..|t|] == s[i..][..|t|];
  }

  /** An occurrence in the tail is an occurrence in `s`, one index later. */
  lemma OccursFromTail(s: string, t: string, i: int)
    requires s != [] && OccursAt(s[1..], t, i)
    ensures OccursAt(s, t, i + 1)
  {
    assert s[i + 1..i + 1 + |t|] == s[1..][i..i + |t|];
  }

  /** `t in s` holds exactly when `t` occurs in `s` at some index. */
  lemma {:induction false} ContainsIffOccurs(s: string, t: string)
    ensures Contains(s, t) <==> exists i :: OccursAt(s, t, i)
    decreases |s|
  {
    if s != [] {
      ContainsIffOccurs(s[1..], t);
    }
    if Contains(s, t) {
      if t <= s {
        assert OccursAt(s, t, 0);
      } else {
        var i :| OccursAt(s[1..], t, i);
        OccursFromTail(s, t, i);
      }
    }
    forall i | OccursAt(s, t, i)
      ensures Contains(s, t)
    {
      if i >= 1 {
        OccursInTail(s, t, i);
      }
    }
  }

  /** A non-empty `t` whose first character never occurs in `s` is not a substring of `s`. */
  lemma {:induction false} NotContainedWithoutFirstChar(s: string, t: string)
    requires t != [] && t[0] !in s
    ensures !Contains(s, t)
    decreases |s|
  {
    if s != [] {
      assert s[0] in s;
      assert forall c :: c in s[1..] ==> c in s;
      NotContainedWithoutFirstChar(s[1..], t);
    }
  }

  /** `s.split('\n')`: always at least one piece, none holding a newline. */
  function SplitLines(s: string): (r: seq<string>)
    ensures |r| >= 1
    ensures forall k :: 0 <= k < |r| ==> '\n' !in r[k]
  {
    if s == [] then [""]
    else
      var rest := SplitLines(s[1..]);
      if s[0] == '\n' then [""] + rest
      else [[s[0]] + rest[0]] + rest[1..]
  }

  /** `'\n'.join(ls)` */
  function JoinLines(ls: seq<string>): string
    requires |ls| >= 1
  {
    if |ls| == 1 then ls[0] else ls[0] + "\n" + JoinLines(ls[1..])
  }

  /** Joining the pieces of `s.split('\n')` with newlines gives back `s`. */
  lemma {:induction false} JoinSplitLines(s: string)
    ensures JoinLines(SplitLines(s)) == s
  {
    if s != [] {
      var rest := SplitLines(s[1..]);
      JoinSplitLines(s[1..]);
      if s[0] == '\n' {
        assert s == [s[0]] + s[1..];
      } else if |rest| == 1 {
        assert s == [s[0]] + s[1..];
      } else {
        var r := [[s[0]] + rest[0]] + rest[1..];
        assert r[1..] == rest[1..];
        assert s == [s[0]] + s[1..];
      }
    }
  }

  lemma {:induction false} SplitLinesPrefix(w: string, s: string)
    requires '\n' !in w
    ensures SplitLines(w + s) == [w + SplitLines(s)[0]] + SplitLines(s)[1..]
    decreases |w|
  {
    if w == [] {
      assert w + s == s;
      var r := SplitLines(s);
      assert r == [r[0]] + r[1..];
      assert w + r[0] == r[0];
    } else {
      assert (w + s)[1..] == w[1..] + s;
      assert w[0] in w;
      SplitLinesPrefix(w[1..], s);
      assert [w[0]] + (w[1..] + SplitLines(s)[0]) == w + SplitLines(s)[0];
    }
  }

  /** Splitting newline-free pieces joined by newlines gives back the pieces. */
  lemma {:induction false} SplitJoinLines(ls: seq<string>)
    requires |ls| >= 1
    requires forall k :: 0 <= k < |ls| ==> '\n' !in ls[k]
    ensures SplitLines(JoinLines(ls)) == ls
  {
    if |ls| == 1 {
      SplitLinesPrefix(ls[0], "");
      assert ls[0] + "" == ls[0];
    } else {
      var tail := JoinLines(ls[1..]);
      SplitJoinLines(ls[1..]);
      assert ls[0] + "\n" + tail == ls[0] + ("\n" + tail);
      SplitLinesPrefix(ls[0], "\n" + tail);
      assert ("\n" + tail)[1..] == tail;
      assert SplitLines("\n" + tail) == [""] + ls[1..];
      assert ls[0] + "" == ls[0];
    }
  }
}
