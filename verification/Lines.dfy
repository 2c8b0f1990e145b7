/** strings.Split and strings.Join on a one-character separator. */
module Lines {
  // strings.Split(s, sep): the pieces between the separators, at least one.
  function Split(s: string, sep: char): (r: seq<string>)
    ensures |r| >= 1
    ensures forall i :: 0 <= i < |r| ==> sep !in r[i]
  {
    if s == "" then [""]
    else
      var rest := Split(s[1..], sep);
      if s[0] == sep then [""] + rest else [[s[0]] + rest[0]] + rest[1..]
  }

  // strings.Join(lines, sep).
  function Join(lines: seq<string>, sep: char): string {
    if lines == [] then ""
    else if |lines| == 1 then lines[0]
    else lines[0] + [sep] + Join(lines[1..], sep)
  }

  lemma {:induction false} JoinSplit(s: string, sep: char)
    ensures Join(Split(s, sep), sep) == s
  {
    if s != "" {
      var rest := Split(s[1..], sep);
      JoinSplit(s[1..], sep);
      if s[0] == sep {
        assert Split(s, sep)[1..] == rest;
      } else {
        assert Split(s, sep)[1..] == rest[1..];
      }
      assert s == [s[0]] + s[1..];
    }
  }

  // A piece without separator, followed by one, is split off.
  lemma {:induction false} SplitPiece(piece: string, rest: string, sep: char)
    requires sep !in piece
    ensures Split(piece + [sep] + rest, sep) == [piece] + Split(rest, sep)
  {
    var s := piece + [sep] + rest;
    if piece == "" {
      assert s[1..] == rest;
    } else {
      assert s[1..] == piece[1..] + [sep] + rest;
      SplitPiece(piece[1..], rest, sep);
      assert ([piece[1..]] + Split(rest, sep))[1..] == Split(rest, sep);
      assert [piece[0]] + piece[1..] == piece;
    }
  }

  lemma {:induction false} JoinLast(ps: seq<string>, p: string, sep: char)
    ensures Join(ps + [p], sep) == if ps == [] then p else Join(ps, sep) + ([sep] + p)
  {
    if |ps| > 1 {
      JoinLast(ps[1..], p, sep);
      assert (ps + [p])[1..] == ps[1..] + [p];
    } else if |ps| == 1 {
      assert (ps + [p])[1..] == [p];
    }
  }
}
