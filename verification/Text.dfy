/** Text helpers of the Go standard library, on a text as the sequence of its runes. */
module Text {
  // unicode.IsSpace.
  predicate IsSpace(c: char) {
    || '\t' <= c <= '\r' || c == ' ' || c == '\U{0085}' || c == '\U{00A0}' || c == '\U{1680}'
    || '\U{2000}' <= c <= '\U{200A}' || c == '\U{2028}' || c == '\U{2029}' || c == '\U{202F}'
    || c == '\U{205F}' || c == '\U{3000}'
  }

  function TrimLeft(s: string): (r: string)
    ensures r != "" ==> !IsSpace(r[0])
  {
    if s != "" && IsSpace(s[0]) then TrimLeft(s[1..]) else s
  }

  function TrimRight(s: string): (r: string)
    ensures r != "" ==> !IsSpace(r[|r| - 1])
    ensures s != "" && !IsSpace(s[0]) ==> r != "" && r[0] == s[0]
  {
    if s != "" && IsSpace(s[|s| - 1]) then TrimRight(s[..|s| - 1]) else s
  }

  // strings.TrimSpace.
  function TrimSpace(s: string): (r: string)
    ensures r != "" ==> !IsSpace(r[0]) && !IsSpace(r[|r| - 1])
  {
    TrimRight(TrimLeft(s))
  }

  // ---- what trimming leaves ----

  lemma {:induction false} Regroup(x: string, y: string, z: string)
    ensures (x + y) + z == x + (y + z)
  {
  }

  // The text without its spaces.
  function Ink(s: string): string {
    if s == "" then "" else (if IsSpace(s[0]) then "" else [s[0]]) + Ink(s[1..])
  }

  lemma {:induction false} InkOfFirst(c: char, s: string)
    ensures Ink([c] + s) == (if IsSpace(c) then "" else [c]) + Ink(s)
  {
    assert ([c] + s)[1..] == s;
  }

  lemma {:induction false} InkOfSum(s: string, t: string)
    ensures Ink(s + t) == Ink(s) + Ink(t)
  {
    if s == "" {
      assert s + t == t;
    } else {
      var rest, ink := s[1..], if IsSpace(s[0]) then "" else [s[0]];
      InkOfSum(rest, t);
      InkOfFirst(s[0], rest + t);
      Regroup([s[0]], rest, t);
      Regroup(ink, Ink(rest), Ink(t));
      assert [s[0]] + rest == s;
    }
  }

  lemma {:induction false} InkOfLeft(s: string)
    ensures Ink(TrimLeft(s)) == Ink(s)
  {
    if s != "" && IsSpace(s[0]) {
      InkOfLeft(s[1..]);
    }
  }

  lemma {:induction false} InkOfRight(s: string)
    ensures Ink(TrimRight(s)) == Ink(s)
  {
    if s != "" && IsSpace(s[|s| - 1]) {
      var front, last := s[..|s| - 1], [s[|s| - 1]];
      InkOfRight(front);
      InkOfSum(front, last);
      assert front + last == s;
      assert last[1..] == "";
    }
  }

  /** Trimming takes nothing but spaces. */
  lemma {:induction false} TrimKeepsInk(s: string)
    ensures Ink(TrimSpace(s)) == Ink(s)
  {
    InkOfLeft(s);
    InkOfRight(TrimLeft(s));
  }

  lemma {:induction false} LeftIsSuffix(s: string)
    ensures |TrimLeft(s)| <= |s| && TrimLeft(s) == s[|s| - |TrimLeft(s)|..]
  {
    if s != "" && IsSpace(s[0]) {
      LeftIsSuffix(s[1..]);
    }
  }

  lemma {:induction false} RightIsPrefix(s: string)
    ensures TrimRight(s) <= s
  {
    if s != "" && IsSpace(s[|s| - 1]) {
      RightIsPrefix(s[..|s| - 1]);
    }
  }

  /** What is left of a text is one piece of it. */
  lemma {:induction false} TrimIsSlice(s: string) returns (i: nat, j: nat)
    ensures i <= j <= |s| && TrimSpace(s) == s[i..j]
  {
    LeftIsSuffix(s);
    RightIsPrefix(TrimLeft(s));
    i := |s| - |TrimLeft(s)|;
    j := i + |TrimSpace(s)|;
  }
}
