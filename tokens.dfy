/**
 * How the scanner turns the log text into lines of fields: `bytes.Split` on the
 * newline character, then `strings.Fields`, which splits around runs of the
 * characters Go's `unicode.IsSpace` accepts and drops empty fields.
 */
module Tokens {

  /** Go's `unicode.IsSpace`: the Latin-1 spaces plus Unicode's White_Space set. */
  predicate IsSpace(c: char) {
    || c == '\t' || c == '\n' || c == '\U{000B}' || c == '\U{000C}' || c == '\r' || c == ' '
    || c == '\U{0085}' || c == '\U{00A0}' || c == '\U{1680}'
    || ('\U{2000}' <= c <= '\U{200A}')
    || c == '\U{2028}' || c == '\U{2029}' || c == '\U{202F}' || c == '\U{205F}' || c == '\U{3000}'
  }

  /** A field as `strings.Fields` produces it: non-empty and free of white space. */
  predicate IsField(w: string) {
    |w| > 0 && forall i :: 0 <= i < |w| ==> !IsSpace(w[i])
  }

  /** Length of the leading run of non-space characters. */
  function FieldEnd(s: string): (n: nat)
    ensures n <= |s|
    ensures forall i :: 0 <= i < n ==> !IsSpace(s[i])
    ensures n < |s| ==> IsSpace(s[n])
    decreases |s|
  {
    if |s| == 0 || IsSpace(s[0]) then 0 else 1 + FieldEnd(s[1..])
  }

  /** `strings.Fields`: the maximal runs of non-space characters, in order. */
  function Fields(s: string): (r: seq<string>)
    ensures forall i :: 0 <= i < |r| ==> IsField(r[i])
    decreases |s|
  {
    if |s| == 0 then []
    else if IsSpace(s[0]) then Fields(s[1..])
    else
      var n := FieldEnd(s);
      [s[..n]] + Fields(s[n..])
  }

  /** The fields written out again, separated by single spaces. */
  function JoinFields(fs: seq<string>): string
    decreases |fs|
  {
    if |fs| == 0 then ""
    else if |fs| == 1 then fs[0]
    else fs[0] + " " + JoinFields(fs[1..])
  }

  /** All characters of `s` that are not white space, in order. */
  function NonSpace(s: string): string
    decreases |s|
  {
    if |s| == 0 then []
    else (if IsSpace(s[0]) then [] else [s[0]]) + NonSpace(s[1..])
  }

  function Concat(fs: seq<string>): string
    decreases |fs|
  {
    if |fs| == 0 then "" else fs[0] + Concat(fs[1..])
  }

  lemma FieldEndOfField(w: string, rest: string)
    requires IsField(w)
    requires rest == [] || IsSpace(rest[0])
    ensures FieldEnd(w + rest) == |w|
  {
    var s := w + rest;
    assert forall i :: 0 <= i < |w| ==> s[i] == w[i];
    assert |rest| > 0 ==> s[|w|] == rest[0];
  }

  /** Splitting a space-joined list of fields gives back exactly that list. */
  lemma {:induction false} FieldsOfJoin(fs: seq<string>)
    requires forall i :: 0 <= i < |fs| ==> IsField(fs[i])
    ensures Fields(JoinFields(fs)) == fs
    decreases |fs|
  {
    if |fs| == 1 {
      FieldEndOfField(fs[0], []);
      assert fs[0] + [] == fs[0];
      var s := fs[0];
      assert s[|s|..] == [];
    } else if |fs| > 1 {
      var rest := JoinFields(fs[1..]);
      var s := fs[0] + " " + rest;
      assert s == fs[0] + (" " + rest);
      FieldEndOfField(fs[0], " " + rest);
      assert s[..|fs[0]|] == fs[0];
      assert s[|fs[0]|..] == " " + rest;
      assert (" " + rest)[1..] == rest;
      FieldsOfJoin(fs[1..]);
      assert [fs[0]] + fs[1..] == fs;
    }
  }

  /** No non-space character is lost or added by `Fields`. */
  lemma {:induction false} FieldsKeepText(s: string)
    ensures Concat(Fields(s)) == NonSpace(s)
    decreases |s|
  {
    if |s| > 0 {
      if IsSpace(s[0]) {
        FieldsKeepText(s[1..]);
      } else {
        var n := FieldEnd(s);
        FieldsKeepText(s[n..]);
        NonSpaceOfField(s[..n], s[n..]);
        assert s[..n] + s[n..] == s;
        assert Concat([s[..n]] + Fields(s[n..])) == s[..n] + Concat(Fields(s[n..]));
      }
    }
  }

  lemma {:induction false} NonSpaceOfField(w: string, rest: string)
    requires forall i :: 0 <= i < |w| ==> !IsSpace(w[i])
    ensures NonSpace(w + rest) == w + NonSpace(rest)
    decreases |w|
  {
    if |w| > 0 {
      assert (w + rest)[1..] == w[1..] + rest;
      NonSpaceOfField(w[1..], rest);
      assert [w[0]] + w[1..] == w;
    } else {
      assert w + rest == rest;
    }
  }

  /** Length of the text before the first newline. */
  function LineEnd(s: string): (n: nat)
    ensures n <= |s|
    ensures forall i :: 0 <= i < n ==> s[i] != '\n'
    ensures n < |s| ==> s[n] == '\n'
    decreases |s|
  {
    if |s| == 0 || s[0] == '\n' then 0 else 1 + LineEnd(s[1..])
  }

  predicate NoNewline(w: string) {
    forall j :: 0 <= j < |w| ==> w[j] != '\n'
  }

  /** `bytes.Split(data, "\n")`: one more piece than there are newlines. */
  function SplitLines(s: string): (r: seq<string>)
    ensures |r| > 0
    decreases |s|
  {
    var n := LineEnd(s);
    if n == |s| then [s] else [s[..n]] + SplitLines(s[n + 1..])
  }

  function JoinLines(ls: seq<string>): string
    requires |ls| > 0
    decreases |ls|
  {
    if |ls| == 1 then ls[0] else ls[0] + "\n" + JoinLines(ls[1..])
  }

  lemma JoinCons(w: string, rest: seq<string>)
    requires |rest| > 0
    ensures JoinLines([w] + rest) == w + "\n" + JoinLines(rest)
  {
    assert ([w] + rest)[1..] == rest;
  }

  lemma Reassemble(s: string, n: nat)
    requires n < |s| && s[n] == '\n'
    ensures s[..n] + "\n" + s[n + 1..] == s
  {
  }

  /** Joining the pieces with newlines restores the text. */
  lemma {:induction false} JoinSplitLines(s: string)
    ensures JoinLines(SplitLines(s)) == s
    decreases |s|
  {
    var n := LineEnd(s);
    if n < |s| {
      var head, tail := s[..n], s[n + 1..];
      var rest := SplitLines(tail);
      assert SplitLines(s) == [head] + rest;
      JoinSplitLines(tail);
      JoinCons(head, rest);
      Reassemble(s, n);
      calc {
        JoinLines(SplitLines(s));
        JoinLines([head] + rest);
        head + "\n" + JoinLines(rest);
        head + "\n" + tail;
        s;
      }
    } else {
      assert SplitLines(s) == [s];
    }
  }

  /** No piece of the split contains a newline. */
  lemma {:induction false} SplitLinesNoNewline(s: string)
    ensures forall i :: 0 <= i < |SplitLines(s)| ==> NoNewline(SplitLines(s)[i])
    decreases |s|
  {
    var n := LineEnd(s);
    if n < |s| {
      SplitLinesNoNewline(s[n + 1..]);
      assert SplitLines(s) == [s[..n]] + SplitLines(s[n + 1..]);
    }
  }

  lemma LineEndOfLine(w: string, rest: string)
    requires NoNewline(w)
    requires rest == [] || rest[0] == '\n'
    ensures LineEnd(w + rest) == |w|
  {
    var s := w + rest;
    assert forall i :: 0 <= i < |w| ==> s[i] == w[i];
    assert |rest| > 0 ==> s[|w|] == rest[0];
  }

  /** Splitting newline-joined, newline-free lines gives back those lines. */
  lemma {:induction false} SplitJoinLines(ls: seq<string>)
    requires |ls| > 0
    requires forall i :: 0 <= i < |ls| ==> NoNewline(ls[i])
    ensures SplitLines(JoinLines(ls)) == ls
    decreases |ls|
  {
    var w := ls[0];
    if |ls| == 1 {
      LineEndOfLine(w, []);
      assert w + [] == w;
    } else {
      var rest := JoinLines(ls[1..]);
      var s := w + ("\n" + rest);
      assert JoinLines(ls) == s;
      LineEndOfLine(w, "\n" + rest);
      assert s[..|w|] == w;
      assert s[|w| + 1..] == rest;
      SplitJoinLines(ls[1..]);
      assert [w] + ls[1..] == ls;
    }
  }

  /** The log text as the scanner sees it: one list of fields per line. */
  function Tokenize(data: string): (lines: seq<seq<string>>)
    ensures |lines| == |SplitLines(data)|
    ensures forall i :: 0 <= i < |lines| ==> lines[i] == Fields(SplitLines(data)[i])
  {
    var ls := SplitLines(data);
    seq(|ls|, i requires 0 <= i < |ls| => Fields(ls[i]))
  }

  /** Space-joined fields contain no newline, since a newline is white space. */
  lemma {:induction false} JoinFieldsNoNewline(fs: seq<string>)
    requires forall i :: 0 <= i < |fs| ==> IsField(fs[i])
    ensures NoNewline(JoinFields(fs))
    decreases |fs|
  {
    if |fs| == 1 {
      assert IsField(fs[0]);
    } else if |fs| > 1 {
      var w := fs[0];
      var rest := JoinFields(fs[1..]);
      JoinFieldsNoNewline(fs[1..]);
      var s := w + " " + rest;
      forall j | 0 <= j < |s|
        ensures s[j] != '\n'
      {
        if j < |w| {
          assert s[j] == w[j];
        } else if j > |w| {
          assert s[j] == rest[j - |w| - 1];
        }
      }
    }
  }

  /** Each line's fields written out, separated by single spaces. */
  function JoinEach(ls: seq<seq<string>>): (ws: seq<string>)
    ensures |ws| == |ls|
  {
    seq(|ls|, i requires 0 <= i < |ls| => JoinFields(ls[i]))
  }

  /** Tokenising a log written one field list per line gives back those field lists. */
  lemma TokenizeOfJoin(ls: seq<seq<string>>)
    requires |ls| > 0
    requires forall i, j :: 0 <= i < |ls| && 0 <= j < |ls[i]| ==> IsField(ls[i][j])
    ensures Tokenize(JoinLines(JoinEach(ls))) == ls
  {
    var ws := JoinEach(ls);
    forall i | 0 <= i < |ws|
      ensures NoNewline(ws[i])
    {
      JoinFieldsNoNewline(ls[i]);
    }
    SplitJoinLines(ws);
    var t := Tokenize(JoinLines(ws));
    forall i | 0 <= i < |ls|
      ensures t[i] == ls[i]
    {
      FieldsOfJoin(ls[i]);
    }
  }
}
