/** The two Python string methods the approval gate applies to the user's
    answer before comparing it: str.strip() with no argument and str.lower().
    The functions are plain definitions; what they guarantee is stated by the
    lemmas after them. */
module PyStr {

  /** The characters for which Python's str.isspace() holds; these are the
      characters str.strip() removes at either end. */
  predicate IsSpace(c: char) {
    || c == ' '
    || ('\t' <= c <= '\r')
    || ('\U{1c}' <= c <= '\U{1f}')
    || c == '\U{85}' || c == '\U{a0}' || c == '\U{1680}'
    || ('\U{2000}' <= c <= '\U{200a}')
    || c == '\U{2028}' || c == '\U{2029}' || c == '\U{202f}'
    || c == '\U{205f}' || c == '\U{3000}'
  }

  predicate AllSpace(s: string) {
    forall i :: 0 <= i < |s| ==> IsSpace(s[i])
  }

  /** Neither end of `s` is a white-space character. */
  predicate Trimmed(s: string) {
    s == [] || (!IsSpace(s[0]) && !IsSpace(s[|s| - 1]))
  }

  /** Drops the leading white space. */
  function StripLeft(s: string): string {
    if s != [] && IsSpace(s[0]) then StripLeft(s[1..]) else s
  }

  /** Drops the trailing white space. */
  function StripRight(s: string): string {
    if s != [] && IsSpace(s[|s| - 1]) then StripRight(s[..|s| - 1]) else s
  }

  /** Python's `s.strip()`. */
  function Strip(s: string): string {
    StripRight(StripLeft(s))
  }

  /** The lower-case form of an ASCII capital letter; every other character is
      left as it is. */
  function LowerChar(c: char): char {
    if 'A' <= c <= 'Z' then (c as int + 32) as char else c
  }

  /** Python's `s.lower()`, restricted to ASCII letters. */
  function Lower(s: string): string {
    seq(|s|, i requires 0 <= i < |s| => LowerChar(s[i]))
  }

  /** The answer as the gate compares it: `answer.strip().lower()`. */
  function Normalize(answer: string): string {
    Lower(Strip(answer))
  }

  /** StripLeft removes a run of white space from the front and stops at the
      first other character: its result is the longest suffix of `s` that
      does not start with white space. */
  lemma {:induction false} StripLeftShape(s: string)
    ensures var r := StripLeft(s);
      && |r| <= |s| && r == s[|s| - |r|..]
      && AllSpace(s[..|s| - |r|])
      && (r != [] ==> !IsSpace(r[0]))
    decreases |s|
  {
    if s != [] && IsSpace(s[0]) {
      StripLeftShape(s[1..]);
      var r := StripLeft(s[1..]);
      assert s[1..][..|s| - 1 - |r|] == s[1..|s| - |r|];
      assert s[..|s| - |r|] == [s[0]] + s[1..|s| - |r|];
    }
  }

  /** StripRight is the mirror image: the longest prefix of `s` that does not
      end with white space. */
  lemma {:induction false} StripRightShape(s: string)
    ensures var r := StripRight(s);
      && |r| <= |s| && r == s[..|r|]
      && AllSpace(s[|r|..])
      && (r != [] ==> !IsSpace(r[|r| - 1]))
    decreases |s|
  {
    if s != [] && IsSpace(s[|s| - 1]) {
      var p := s[..|s| - 1];
      StripRightShape(p);
      var r := StripRight(p);
      assert p[|r|..] + [s[|s| - 1]] == s[|r|..];
    }
  }

  /** strip() leaves no white space at either end, and gives the empty string
      exactly when `s` is white space through and through. */
  lemma StripShape(s: string)
    ensures Trimmed(Strip(s))
    ensures |Strip(s)| <= |s|
    ensures Strip(s) == [] <==> AllSpace(s)
  {
    var l := StripLeft(s);
    StripLeftShape(s);
    StripRightShape(l);
    var r := StripRight(l);
    if r == [] {
      assert AllSpace(l) by { assert l[0..] == l; }
      assert s == s[..|s| - |l|] + l;
    }
  }

  /** Leading white space in front of a string that does not start with
      white space is exactly what StripLeft removes. */
  lemma {:induction false} StripLeftPadded(pre: string, t: string)
    requires AllSpace(pre)
    requires t == [] || !IsSpace(t[0])
    ensures StripLeft(pre + t) == t
    decreases |pre|
  {
    if pre != [] {
      assert (pre + t)[1..] == pre[1..] + t;
      StripLeftPadded(pre[1..], t);
    } else {
      assert pre + t == t;
    }
  }

  /** Trailing white space after a string that does not end with white
      space is exactly what StripRight removes. */
  lemma {:induction false} StripRightPadded(t: string, post: string)
    requires AllSpace(post)
    requires t == [] || !IsSpace(t[|t| - 1])
    ensures StripRight(t + post) == t
    decreases |post|
  {
    if post != [] {
      var p := post[..|post| - 1];
      assert (t + post)[..|t + post| - 1] == t + p;
      StripRightPadded(t, p);
    } else {
      assert t + post == t;
    }
  }

  /** strip() removes exactly the white space around a trimmed core: whatever
      white space surrounds `t`, stripping gives back `t`. */
  lemma StripPadded(pre: string, t: string, post: string)
    requires AllSpace(pre) && AllSpace(post) && Trimmed(t)
    ensures Strip(pre + t + post) == t
  {
    if t == [] {
      assert pre + t + post == pre + post;
      StripLeftPadded(pre + post, []);
      assert pre + post + [] == pre + post;
    } else {
      assert pre + t + post == pre + (t + post);
      StripLeftPadded(pre, t + post);
      StripRightPadded(t, post);
    }
  }

  /** The ASCII-only lower() keeps the length, keeps a trimmed string trimmed
      and leaves no ASCII capital behind. */
  lemma LowerShape(s: string)
    ensures |Lower(s)| == |s|
    ensures Trimmed(s) ==> Trimmed(Lower(s))
    ensures forall i :: 0 <= i < |s| ==> !('A' <= Lower(s)[i] <= 'Z')
  {
  }

  /** A normalised answer has no white space at either end and no ASCII
      capital anywhere. */
  lemma NormalizedShape(answer: string)
    ensures Trimmed(Normalize(answer))
    ensures forall i :: 0 <= i < |Normalize(answer)| ==> !('A' <= Normalize(answer)[i] <= 'Z')
  {
    StripShape(answer);
    LowerShape(Strip(answer));
  }

  /** A trimmed string without ASCII capitals normalises to itself. */
  lemma NormalFixed(n: string)
    requires Trimmed(n)
    requires forall i :: 0 <= i < |n| ==> !('A' <= n[i] <= 'Z')
    ensures Normalize(n) == n
  {
  }

  /** Normalising an already normalised answer changes nothing. */
  lemma NormalizeIdempotent(answer: string)
    ensures Normalize(Normalize(answer)) == Normalize(answer)
  {
    NormalizedShape(answer);
    NormalFixed(Normalize(answer));
  }

  /** The answer's surrounding white space and the case of its ASCII letters
      do not survive normalisation. */
  lemma NormalizePadded(pre: string, t: string, post: string)
    requires AllSpace(pre) && AllSpace(post) && Trimmed(t)
    ensures Normalize(pre + t + post) == Lower(t)
  {
    StripPadded(pre, t, post);
  }

  /** lower() works character by character, so it distributes over
      concatenation. */
  lemma LowerAppend(a: string, b: string)
    ensures Lower(a + b) == Lower(a) + Lower(b)
  {
  }

  /** White space has no case, so lower() leaves it as it is. */
  lemma LowerSpace(s: string)
    requires AllSpace(s)
    ensures Lower(s) == s
  {
  }

  /** Stripping and lowering commute: case changes never touch white space,
      and stripping never looks at anything but white space. */
  lemma StripLowerCommute(s: string)
    ensures Strip(Lower(s)) == Lower(Strip(s))
  {
    var l := StripLeft(s);
    StripLeftShape(s);
    StripRightShape(l);
    var r := StripRight(l);
    var pre := s[..|s| - |l|];
    var post := l[|r|..];
    assert l == r + post;
    assert s == pre + l;
    assert s == pre + r + post;
    assert Trimmed(r);
    LowerAppend(pre, r);
    LowerAppend(pre + r, post);
    LowerSpace(pre);
    LowerSpace(post);
    LowerShape(r);
    StripPadded(pre, Lower(r), post);
  }

  /** Answers that differ only in the case of their ASCII letters normalise
      to the same string. */
  lemma NormalizeIgnoresCase(a: string, b: string)
    requires Lower(a) == Lower(b)
    ensures Normalize(a) == Normalize(b)
  {
    StripLowerCommute(a);
    StripLowerCommute(b);
  }

  /** strip() of `s` splits it into its leading white space, its trimmed
      core and its trailing white space. */
  lemma StripSplit(s: string) returns (p: string, q: string)
    ensures AllSpace(p) && AllSpace(q) && Trimmed(Strip(s))
    ensures s == p + Strip(s) + q
  {
    var l := StripLeft(s);
    StripLeftShape(s);
    StripRightShape(l);
    StripShape(s);
    var r := StripRight(l);
    p := s[..|s| - |l|];
    q := l[|r|..];
    assert l == r + q;
    assert s == p + l;
  }

  /** Extra white space around any answer, trimmed or not, is removed along
      with the answer's own. */
  lemma StripAbsorbsPadding(pre: string, s: string, post: string)
    requires AllSpace(pre) && AllSpace(post)
    ensures Strip(pre + s + post) == Strip(s)
  {
    var p, q := StripSplit(s);
    var r := Strip(s);
    assert pre + s + post == (pre + p) + r + (q + post);
    assert AllSpace(pre + p) by {
      forall i | 0 <= i < |pre + p| ensures IsSpace((pre + p)[i]) {
        if i >= |pre| { assert (pre + p)[i] == p[i - |pre|]; }
      }
    }
    assert AllSpace(q + post) by {
      forall i | 0 <= i < |q + post| ensures IsSpace((q + post)[i]) {
        if i >= |q| { assert (q + post)[i] == post[i - |q|]; }
      }
    }
    StripPadded(pre + p, r, q + post);
  }
}
