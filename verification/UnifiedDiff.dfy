/**
 The line diff of two texts.  LcsTable and UnifiedDiff are the two loops of the program; the functions beside
 them say what the loops compute, and the lemmas that this is a shortest edit script, printed without loss.
 */
module UnifiedDiff {
  import opened Lines

  // ---- longest common subsequences ----

  // `c` is what remains of `a` after dropping some lines.
  predicate Subsequence(c: seq<string>, a: seq<string>) {
    c == [] || (a != [] && ((c[0] == a[0] && Subsequence(c[1..], a[1..])) || Subsequence(c, a[1..])))
  }

  // What cell (i, j) of the table holds for the suffixes from line i and line j on.
  function Lcs(a: seq<string>, b: seq<string>): nat {
    if a == [] || b == [] then 0
    else if a[0] == b[0] then Lcs(a[1..], b[1..]) + 1
    else if Lcs(a[1..], b) >= Lcs(a, b[1..]) then Lcs(a[1..], b)
    else Lcs(a, b[1..])
  }

  lemma {:induction false} TailOfSubsequence(c: seq<string>, a: seq<string>)
    requires c != [] && Subsequence(c, a)
    ensures a != [] && Subsequence(c[1..], a[1..])
  {
    if !(c[0] == a[0] && Subsequence(c[1..], a[1..])) {
      TailOfSubsequence(c, a[1..]);
      WidenSubsequence(c[1..], a[1..][1..], a[1]);
      assert a[1..] == [a[1]] + a[1..][1..];
    }
  }

  lemma {:induction false} WidenSubsequence(c: seq<string>, a: seq<string>, line: string)
    requires Subsequence(c, a)
    ensures Subsequence(c, [line] + a)
  {
    assert ([line] + a)[1..] == a;
  }

  /** No common subsequence is longer than Lcs. */
  lemma {:induction false} LcsIsUpperBound(c: seq<string>, a: seq<string>, b: seq<string>)
    requires Subsequence(c, a) && Subsequence(c, b)
    ensures |c| <= Lcs(a, b)
    decreases |a| + |b|
  {
    if c != [] {
      if a[0] == b[0] {
        TailOfSubsequence(c, a);
        TailOfSubsequence(c, b);
        LcsIsUpperBound(c[1..], a[1..], b[1..]);
      } else if c[0] != a[0] {
        LcsIsUpperBound(c, a[1..], b);
      } else {
        LcsIsUpperBound(c, a, b[1..]);
      }
    }
  }

  // ---- edit scripts ----

  datatype Edit = Keep(line: string) | Del(line: string) | Add(line: string)

  function OldLines(script: seq<Edit>): seq<string> {
    if script == [] then []
    else (if script[0].Add? then [] else [script[0].line]) + OldLines(script[1..])
  }

  function NewLines(script: seq<Edit>): seq<string> {
    if script == [] then []
    else (if script[0].Del? then [] else [script[0].line]) + NewLines(script[1..])
  }

  function KeptLines(script: seq<Edit>): seq<string> {
    if script == [] then []
    else (if script[0].Keep? then [script[0].line] else []) + KeptLines(script[1..])
  }

  predicate Turns(script: seq<Edit>, a: seq<string>, b: seq<string>) {
    OldLines(script) == a && NewLines(script) == b
  }

  // The number of deleted and inserted lines.
  function Cost(script: seq<Edit>): nat {
    if script == [] then 0 else (if script[0].Keep? then 0 else 1) + Cost(script[1..])
  }

  // What any edit script keeps is a common subsequence of the two texts, and what it does not keep it pays for.
  lemma {:induction false} ScriptsKeepSubsequences(script: seq<Edit>)
    ensures Subsequence(KeptLines(script), OldLines(script)) && Subsequence(KeptLines(script), NewLines(script))
    ensures Cost(script) + 2 * |KeptLines(script)| == |OldLines(script)| + |NewLines(script)|
  {
    if script != [] {
      var rest := script[1..];
      ScriptsKeepSubsequences(rest);
      if script[0].Keep? {
        assert KeptLines(script)[1..] == KeptLines(rest);
        assert OldLines(script)[1..] == OldLines(rest);
        assert NewLines(script)[1..] == NewLines(rest);
      } else {
        WidenSubsequence(KeptLines(rest), OldLines(rest), script[0].line);
        WidenSubsequence(KeptLines(rest), NewLines(rest), script[0].line);
        assert KeptLines(script) == KeptLines(rest);
        assert [] + OldLines(rest) == OldLines(rest) && [] + NewLines(rest) == NewLines(rest);
      }
    }
  }

  // ---- the walk ----

  function Deleted(a: seq<string>): seq<Edit> {
    if a == [] then [] else [Del(a[0])] + Deleted(a[1..])
  }

  function Added(b: seq<string>): seq<Edit> {
    if b == [] then [] else [Add(b[0])] + Added(b[1..])
  }

  // The edits the walk takes through the table.
  function Walk(a: seq<string>, b: seq<string>): seq<Edit> {
    if b == [] then Deleted(a)
    else if a == [] then Added(b)
    else if a[0] == b[0] then [Keep(a[0])] + Walk(a[1..], b[1..])
    else if Lcs(a[1..], b) >= Lcs(a, b[1..]) then [Del(a[0])] + Walk(a[1..], b)
    else [Add(b[0])] + Walk(a, b[1..])
  }

  lemma {:induction false} DeletedTurns(a: seq<string>)
    ensures Turns(Deleted(a), a, []) && KeptLines(Deleted(a)) == []
  {
    if a != [] {
      DeletedTurns(a[1..]);
      assert Deleted(a)[1..] == Deleted(a[1..]);
    }
  }

  lemma {:induction false} AddedTurns(b: seq<string>)
    ensures Turns(Added(b), [], b) && KeptLines(Added(b)) == []
  {
    if b != [] {
      AddedTurns(b[1..]);
      assert Added(b)[1..] == Added(b[1..]);
    }
  }

  /** The walk turns the old lines into the new ones and keeps exactly Lcs of them. */
  lemma {:induction false} WalkTurns(a: seq<string>, b: seq<string>)
    ensures Turns(Walk(a, b), a, b) && |KeptLines(Walk(a, b))| == Lcs(a, b)
    decreases |a| + |b|
  {
    var script := Walk(a, b);
    if b == [] {
      DeletedTurns(a);
    } else if a == [] {
      AddedTurns(b);
    } else if a[0] == b[0] {
      WalkTurns(a[1..], b[1..]);
      assert script[1..] == Walk(a[1..], b[1..]);
    } else if Lcs(a[1..], b) >= Lcs(a, b[1..]) {
      WalkTurns(a[1..], b);
      assert script[1..] == Walk(a[1..], b);
    } else {
      WalkTurns(a, b[1..]);
      assert script[1..] == Walk(a, b[1..]);
    }
  }

  /** Lcs is the length of a longest common subsequence: some common subsequence has it and none is longer. */
  lemma {:induction false} LcsIsLongest(a: seq<string>, b: seq<string>)
    ensures exists c :: Subsequence(c, a) && Subsequence(c, b) && |c| == Lcs(a, b)
    ensures forall c :: Subsequence(c, a) && Subsequence(c, b) ==> |c| <= Lcs(a, b)
  {
    WalkTurns(a, b);
    ScriptsKeepSubsequences(Walk(a, b));
    assert Subsequence(KeptLines(Walk(a, b)), a);
    forall c | Subsequence(c, a) && Subsequence(c, b)
      ensures |c| <= Lcs(a, b)
    {
      LcsIsUpperBound(c, a, b);
    }
  }

  /** No edit script between the two texts deletes and inserts fewer lines than the walk does. */
  lemma {:induction false} WalkIsShortest(a: seq<string>, b: seq<string>, script: seq<Edit>)
    requires Turns(script, a, b)
    ensures Cost(Walk(a, b)) <= Cost(script)
  {
    WalkTurns(a, b);
    ScriptsKeepSubsequences(Walk(a, b));
    ScriptsKeepSubsequences(script);
    LcsIsUpperBound(KeptLines(script), a, b);
  }

  // No insertion stands right before a deletion.
  predicate DeletesFirst(script: seq<Edit>) {
    |script| <= 1 || (!(script[0].Add? && script[1].Del?) && DeletesFirst(script[1..]))
  }

  lemma {:induction false} FewerLinesFewerCommon(a: seq<string>, b: seq<string>)
    requires b != []
    ensures Lcs(a, b[1..]) <= Lcs(a, b)
  {
    LcsIsLongest(a, b[1..]);
    var c :| Subsequence(c, a) && Subsequence(c, b[1..]) && |c| == Lcs(a, b[1..]);
    assert Subsequence(c, b);
    LcsIsUpperBound(c, a, b);
  }

  // After an insertion the walk does not delete: it would have deleted first.
  lemma {:induction false} AddThenNoDel(a: seq<string>, b: seq<string>)
    requires a != [] && b != [] && a[0] != b[0] && Lcs(a[1..], b) < Lcs(a, b[1..])
    ensures Walk(a, b[1..]) != [] && !Walk(a, b[1..])[0].Del?
  {
    FewerLinesFewerCommon(a[1..], b);
  }

  lemma {:induction false} OneKindDeletesFirst(lines: seq<string>)
    ensures DeletesFirst(Deleted(lines)) && DeletesFirst(Added(lines))
  {
    if lines != [] {
      OneKindDeletesFirst(lines[1..]);
      assert Deleted(lines)[1..] == Deleted(lines[1..]) && Added(lines)[1..] == Added(lines[1..]);
    }
  }

  /** Where lines are replaced, the walk deletes the old ones before it inserts the new ones. */
  lemma {:induction false} WalkDeletesFirst(a: seq<string>, b: seq<string>)
    ensures DeletesFirst(Walk(a, b))
    decreases |a| + |b|
  {
    var script := Walk(a, b);
    if b == [] || a == [] {
      OneKindDeletesFirst(a);
      OneKindDeletesFirst(b);
    } else if a[0] == b[0] {
      WalkDeletesFirst(a[1..], b[1..]);
      assert script[1..] == Walk(a[1..], b[1..]);
    } else if Lcs(a[1..], b) >= Lcs(a, b[1..]) {
      WalkDeletesFirst(a[1..], b);
      assert script[1..] == Walk(a[1..], b);
    } else {
      WalkDeletesFirst(a, b[1..]);
      AddThenNoDel(a, b);
      assert script[1..] == Walk(a, b[1..]);
    }
  }

  // ---- the printed diff ----

  function Printed(e: Edit): string {
    match e
    case Keep(line) => "  " + line
    case Del(line) => "- " + line
    case Add(line) => "+ " + line
  }

  function Render(script: seq<Edit>): string {
    if script == [] then "" else Printed(script[0]) + "\n" + Render(script[1..])
  }

  // The longest common subsequence of the lines from i and from j on.
  function LcsFrom(a: seq<string>, b: seq<string>, i: nat, j: nat): nat
    requires i <= |a| && j <= |b|
  {
    Lcs(a[i..], b[j..])
  }

  lemma {:induction false} LcsStep(a: seq<string>, b: seq<string>, i: nat, j: nat)
    requires i < |a| && j < |b|
    ensures LcsFrom(a, b, i, j) ==
      if a[i] == b[j] then LcsFrom(a, b, i + 1, j + 1) + 1
      else if LcsFrom(a, b, i + 1, j) >= LcsFrom(a, b, i, j + 1) then LcsFrom(a, b, i + 1, j)
      else LcsFrom(a, b, i, j + 1)
  {
    assert a[i..][1..] == a[i + 1..] && b[j..][1..] == b[j + 1..];
  }

  lemma {:induction false} RenderFirst(e: Edit, script: seq<Edit>)
    ensures Render([e] + script) == Printed(e) + "\n" + Render(script)
  {
    assert ([e] + script)[1..] == script;
  }

  // What the walk still has to print from line i of the old text and line j of the new one on.
  function Rest(a: seq<string>, b: seq<string>, i: nat, j: nat): string
    requires i <= |a| && j <= |b|
  {
    Render(Walk(a[i..], b[j..]))
  }

  // The walk stands at (i, j) and has printed `out`.
  predicate Printing(a: seq<string>, b: seq<string>, i: nat, j: nat, out: string) {
    i <= |a| && j <= |b| && out + Rest(a, b, i, j) == Rest(a, b, 0, 0)
  }

  // One edit more is printed.
  lemma {:induction false} EmitNext(e: Edit, script: seq<Edit>, longer: seq<Edit>, out: string, total: string)
    requires longer == [e] + script && out + Render(longer) == total
    ensures (out + (Printed(e) + "\n")) + Render(script) == total
  {
    RenderFirst(e, script);
    assert (out + (Printed(e) + "\n")) + Render(script) == out + ((Printed(e) + "\n") + Render(script));
  }

  lemma {:induction false} EmitKeep(a: seq<string>, b: seq<string>, i: nat, j: nat, out: string)
    requires i < |a| && j < |b| && a[i] == b[j] && Printing(a, b, i, j, out)
    ensures Printing(a, b, i + 1, j + 1, out + ("  " + a[i] + "\n"))
  {
    assert a[i..][1..] == a[i + 1..] && b[j..][1..] == b[j + 1..];
    assert Walk(a[i..], b[j..]) == [Keep(a[i])] + Walk(a[i + 1..], b[j + 1..]);
    EmitNext(Keep(a[i]), Walk(a[i + 1..], b[j + 1..]), Walk(a[i..], b[j..]), out, Rest(a, b, 0, 0));
  }

  lemma {:induction false} EmitDel(a: seq<string>, b: seq<string>, i: nat, j: nat, out: string)
    requires i < |a| && j <= |b| && Printing(a, b, i, j, out)
    requires j == |b| || (a[i] != b[j] && LcsFrom(a, b, i + 1, j) >= LcsFrom(a, b, i, j + 1))
    ensures Printing(a, b, i + 1, j, out + ("- " + a[i] + "\n"))
  {
    assert a[i..][1..] == a[i + 1..];
    if j < |b| {
      assert b[j..][1..] == b[j + 1..];
    }
    assert Walk(a[i..], b[j..]) == [Del(a[i])] + Walk(a[i + 1..], b[j..]);
    EmitNext(Del(a[i]), Walk(a[i + 1..], b[j..]), Walk(a[i..], b[j..]), out, Rest(a, b, 0, 0));
  }

  lemma {:induction false} EmitAdd(a: seq<string>, b: seq<string>, i: nat, j: nat, out: string)
    requires i <= |a| && j < |b| && Printing(a, b, i, j, out)
    requires i == |a| || (a[i] != b[j] && LcsFrom(a, b, i + 1, j) < LcsFrom(a, b, i, j + 1))
    ensures Printing(a, b, i, j + 1, out + ("+ " + b[j] + "\n"))
  {
    assert b[j..][1..] == b[j + 1..];
    if i < |a| {
      assert a[i..][1..] == a[i + 1..];
    }
    assert Walk(a[i..], b[j..]) == [Add(b[j])] + Walk(a[i..], b[j + 1..]);
    EmitNext(Add(b[j]), Walk(a[i..], b[j + 1..]), Walk(a[i..], b[j..]), out, Rest(a, b, 0, 0));
  }

  // The table holds the length of a longest common subsequence for every pair of suffixes.
  ghost predicate IsTable(a: seq<string>, b: seq<string>, lcs: array2<nat>)
    reads lcs
  {
    && lcs.Length0 == |a| + 1 && lcs.Length1 == |b| + 1
    && forall i, j :: 0 <= i <= |a| && 0 <= j <= |b| ==> lcs[i, j] == LcsFrom(a, b, i, j)
  }

  // The table: one row and one column more than the lines, filled from the bottom right.
  method LcsTable(a: seq<string>, b: seq<string>) returns (lcs: array2<nat>)
    ensures fresh(lcs) && IsTable(a, b, lcs)
  {
    var m, n := |a|, |b|;
    lcs := new nat[m + 1, n + 1]((_, _) => 0);
    var i := m - 1;
    while i >= 0
      invariant -1 <= i < m
      invariant forall k, l :: i < k <= m && 0 <= l <= n ==> lcs[k, l] == LcsFrom(a, b, k, l)
      invariant forall k :: 0 <= k <= i ==> lcs[k, n] == 0
    {
      var j := n - 1;
      assert lcs[i, n] == LcsFrom(a, b, i, n);
      while j >= 0
        invariant -1 <= j < n
        invariant forall k, l :: i < k <= m && 0 <= l <= n ==> lcs[k, l] == LcsFrom(a, b, k, l)
        invariant forall k :: 0 <= k < i ==> lcs[k, n] == 0
        invariant forall l :: j < l <= n ==> lcs[i, l] == LcsFrom(a, b, i, l)
      {
        LcsStep(a, b, i, j);
        if a[i] == b[j] {
          lcs[i, j] := lcs[i + 1, j + 1] + 1;
        } else if lcs[i + 1, j] >= lcs[i, j + 1] {
          lcs[i, j] := lcs[i + 1, j];
        } else {
          lcs[i, j] := lcs[i, j + 1];
        }
        j := j - 1;
      }
      i := i - 1;
    }
  }

  // The first loop: it stops when one of the texts is used up.
  method PrintCommon(a: seq<string>, b: seq<string>, lcs: array2<nat>) returns (i: nat, j: nat, out: string)
    requires IsTable(a, b, lcs)
    ensures Printing(a, b, i, j, out) && (i == |a| || j == |b|)
  {
    out, i, j := "", 0, 0;
    while i < |a| && j < |b|
      invariant Printing(a, b, i, j, out)
      decreases |a| - i + |b| - j
    {
      if a[i] == b[j] {
        EmitKeep(a, b, i, j, out);
        out, i, j := out + ("  " + a[i] + "\n"), i + 1, j + 1;
      } else if lcs[i + 1, j] >= lcs[i, j + 1] {
        EmitDel(a, b, i, j, out);
        out, i := out + ("- " + a[i] + "\n"), i + 1;
      } else {
        EmitAdd(a, b, i, j, out);
        out, j := out + ("+ " + b[j] + "\n"), j + 1;
      }
    }
  }

  lemma {:induction false} PrintedAll(a: seq<string>, b: seq<string>, out: string)
    requires Printing(a, b, |a|, |b|, out)
    ensures out == Render(Walk(a, b))
  {
    assert a[0..] == a && b[0..] == b;
  }

  method UnifiedDiff(oldText: string, newText: string) returns (out: string)
    ensures out == Render(Walk(Split(oldText, '\n'), Split(newText, '\n')))
  {
    var a, b := Split(oldText, '\n'), Split(newText, '\n');
    var lcs := LcsTable(a, b);
    var i, j;
    i, j, out := PrintCommon(a, b, lcs);
    while i < |a|
      invariant Printing(a, b, i, j, out) && (i == |a| || j == |b|)
    {
      EmitDel(a, b, i, j, out);
      out, i := out + ("- " + a[i] + "\n"), i + 1;
    }
    while j < |b|
      invariant Printing(a, b, i, j, out) && i == |a|
    {
      EmitAdd(a, b, i, j, out);
      out, j := out + ("+ " + b[j] + "\n"), j + 1;
    }
    PrintedAll(a, b, out);
  }

  // ---- reading the diff back ----

  // The lines without those marked `drop`, each stripped of its two-character mark.
  function Stripped(printed: seq<string>, drop: char): seq<string> {
    if printed == [] then []
    else
      var line := printed[0];
      (if |line| < 2 || line[0] == drop then [] else [line[2..]]) + Stripped(printed[1..], drop)
  }

  // The text that stays when the lines marked `drop` are taken out of a printed diff.
  function Without(diff: string, drop: char): string {
    var printed := Split(diff, '\n');
    Join(Stripped(printed[..|printed| - 1], drop), '\n')
  }

  function PrintedLines(script: seq<Edit>): seq<string> {
    if script == [] then [] else [Printed(script[0])] + PrintedLines(script[1..])
  }

  lemma {:induction false} SplitRendered(script: seq<Edit>)
    requires forall i :: 0 <= i < |script| ==> '\n' !in script[i].line
    ensures Split(Render(script), '\n') == PrintedLines(script) + [""]
  {
    if script != [] {
      SplitRendered(script[1..]);
      SplitPiece(Printed(script[0]), Render(script[1..]), '\n');
    }
  }

  lemma {:induction false} StrippedLines(script: seq<Edit>)
    ensures Stripped(PrintedLines(script), '+') == OldLines(script)
    ensures Stripped(PrintedLines(script), '-') == NewLines(script)
  {
    if script != [] {
      StrippedLines(script[1..]);
      assert PrintedLines(script)[1..] == PrintedLines(script[1..]);
      assert Printed(script[0])[2..] == script[0].line;
    }
  }

  lemma {:induction false} ScriptLines(script: seq<Edit>)
    ensures forall i :: 0 <= i < |script| ==> script[i].line in OldLines(script) + NewLines(script)
  {
    if script != [] {
      ScriptLines(script[1..]);
      forall i | 0 < i < |script|
        ensures script[i].line in OldLines(script) + NewLines(script)
      {
        assert script[i] == script[1..][i - 1];
      }
    }
  }

  /**
   The printed diff loses nothing: without its "+" lines it is the old text, without its "-" lines the new
   one.  For all texts, whatever their lines begin with.
   */
  lemma {:induction false} DiffIsLossless(oldText: string, newText: string)
    ensures
      var diff := Render(Walk(Split(oldText, '\n'), Split(newText, '\n')));
      Without(diff, '+') == oldText && Without(diff, '-') == newText
  {
    var a, b := Split(oldText, '\n'), Split(newText, '\n');
    var script := Walk(a, b);
    WalkTurns(a, b);
    ScriptLines(script);
    SplitRendered(script);
    StrippedLines(script);
    assert (PrintedLines(script) + [""])[..|PrintedLines(script)|] == PrintedLines(script);
    JoinSplit(oldText, '\n');
    JoinSplit(newText, '\n');
  }
}
