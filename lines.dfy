/**
 * Text as a sequence of newline-terminated lines: the view in which the
 * generated documents are described.
 */
module Lines {

  /** A line proper: no character of it is a newline. */
  predicate NoNewline(l: string) {
    forall i :: 0 <= i < |l| ==> l[i] != '\n'
  }

  /** One line of text with its terminating newline. */
  function Line(l: string): string {
    l + "\n"
  }

  /** Writes each line followed by a newline, the way a text file is laid out. */
  function Unlines(ls: seq<string>): (t: string)
    ensures ls == [] <==> t == []
    ensures ls != [] ==> t[|t| - 1] == '\n'
  {
    if ls == [] then "" else Line(ls[0]) + Unlines(ls[1..])
  }

  /** The position of the first newline in s, or |s| when there is none. */
  function NewlineIndex(s: string): (i: nat)
    ensures i <= |s|
    ensures i < |s| ==> s[i] == '\n'
    ensures forall k :: 0 <= k < i ==> s[k] != '\n'
  {
    if s == [] || s[0] == '\n' then 0 else 1 + NewlineIndex(s[1..])
  }

  /**
   * Splits text into its lines. Each newline ends a line; text after the
   * last newline, if any, is one more (unterminated) line.
   */
  function SplitLines(s: string): seq<string>
    decreases |s|
  {
    if s == [] then []
    else
      var i := NewlineIndex(s);
      if i == |s| then [s] else [s[..i]] + SplitLines(s[i + 1..])
  }

  lemma {:induction false} UnlinesAppend(a: seq<string>, b: seq<string>)
    ensures Unlines(a + b) == Unlines(a) + Unlines(b)
  {
    if a != [] {
      assert (a + b)[1..] == a[1..] + b;
      UnlinesAppend(a[1..], b);
      calc {
        Unlines(a + b);
        Line(a[0]) + Unlines(a[1..] + b);
        Line(a[0]) + (Unlines(a[1..]) + Unlines(b));
        (Line(a[0]) + Unlines(a[1..])) + Unlines(b);
      }
    } else {
      assert a + b == b;
    }
  }

  /** Writing one more line appends it with its newline. */
  lemma UnlinesSnoc(ls: seq<string>, l: string)
    ensures Unlines(ls + [l]) == Unlines(ls) + Line(l)
  {
    UnlinesAppend(ls, [l]);
  }

  /** Writing the first k + 1 lines is writing the first k, then line k. */
  lemma UnlinesPrefix(ls: seq<string>, k: nat)
    requires k < |ls|
    ensures Unlines(ls[..k + 1]) == Unlines(ls[..k]) + Line(ls[k])
  {
    UnlinesSnoc(ls[..k], ls[k]);
    assert ls[..k] + [ls[k]] == ls[..k + 1];
  }

  /** Eight lines written one after the other. */
  lemma UnlinesEight(a0: string, a1: string, a2: string, a3: string, a4: string, a5: string, a6: string, a7: string)
    ensures Unlines([a0, a1, a2, a3, a4, a5, a6, a7])
         == Line(a0) + Line(a1) + Line(a2) + Line(a3) + Line(a4) + Line(a5) + Line(a6) + Line(a7)
  {
    var ls := [a0, a1, a2, a3, a4, a5, a6, a7];
    assert ls[..0] == [];
    UnlinesPrefix(ls, 0);
    UnlinesPrefix(ls, 1);
    UnlinesPrefix(ls, 2);
    UnlinesPrefix(ls, 3);
    UnlinesPrefix(ls, 4);
    UnlinesPrefix(ls, 5);
    UnlinesPrefix(ls, 6);
    UnlinesPrefix(ls, 7);
    assert ls[..8] == ls;
  }

  /** Splitting the written text gives back the lines, when no line holds a newline. */
  lemma {:induction false} SplitUnlines(ls: seq<string>)
    requires forall k :: 0 <= k < |ls| ==> NoNewline(ls[k])
    ensures SplitLines(Unlines(ls)) == ls
  {
    if ls != [] {
      var t := Unlines(ls);
      var rest := Unlines(ls[1..]);
      assert t == ls[0] + ("\n" + rest);
      assert NewlineIndex(t) == |ls[0]| by {
        assert t[|ls[0]|] == '\n';
        assert forall k :: 0 <= k < |ls[0]| ==> t[k] == ls[0][k];
      }
      assert t[..|ls[0]|] == ls[0];
      assert t[|ls[0]| + 1..] == rest;
      SplitUnlines(ls[1..]);
    }
  }

  /** Writing the lines of a newline-terminated text gives back the text. */
  lemma {:induction false} UnlinesSplit(s: string)
    requires s == [] || s[|s| - 1] == '\n'
    ensures Unlines(SplitLines(s)) == s
    decreases |s|
  {
    if s != [] {
      var i := NewlineIndex(s);
      assert i < |s|;
      var tail := s[i + 1..];
      assert tail == [] || tail[|tail| - 1] == '\n';
      UnlinesSplit(tail);
      assert s == s[..i] + "\n" + tail;
    }
  }
}
