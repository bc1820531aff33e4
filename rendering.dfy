/**
  * The string that a paths list renders to: every entry followed by the
  * path-list separator, the last one included, plus the facts about that
  * string that the rest of the model relies on.
  */
module Rendering {

  /** Every entry of `ps`, in order, each followed by `sep`. */
  function Terminated(ps: seq<string>, sep: string): string
  {
    if ps == [] then "" else ps[0] + sep + Terminated(ps[1..], sep)
  }

  /** Total length of the entries of `ps`. */
  function TotalLength(ps: seq<string>): nat
  {
    if ps == [] then 0 else |ps[0]| + TotalLength(ps[1..])
  }

  /** The conventional join, with `sep` only between entries. */
  function Joined(ps: seq<string>, sep: string): string
  {
    if ps == [] then ""
    else if |ps| == 1 then ps[0]
    else ps[0] + sep + Joined(ps[1..], sep)
  }

  /** Rendering distributes over concatenation of the entry sequence. */
  lemma {:induction false} TerminatedAppend(a: seq<string>, b: seq<string>, sep: string)
    ensures Terminated(a + b, sep) == Terminated(a, sep) + Terminated(b, sep)
  {
    if a == [] {
      assert a + b == b;
    } else {
      assert (a + b)[1..] == a[1..] + b;
      TerminatedAppend(a[1..], b, sep);
    }
  }

  /** Appending one more entry appends that entry and one more separator. */
  lemma TerminatedSnoc(ps: seq<string>, p: string, sep: string)
    ensures Terminated(ps + [p], sep) == Terminated(ps, sep) + p + sep
  {
    TerminatedAppend(ps, [p], sep);
    assert Terminated([p], sep) == p + sep + Terminated([], sep);
  }

  /** One separator per entry: the length is the entries' total plus |ps| separators. */
  lemma {:induction false} TerminatedLength(ps: seq<string>, sep: string)
    ensures |Terminated(ps, sep)| == TotalLength(ps) + |ps| * |sep|
  {
    if ps != [] {
      TerminatedLength(ps[1..], sep);
    }
  }

  /** A non-empty rendering ends with the separator. */
  lemma {:induction false} TerminatedEndsWithSeparator(ps: seq<string>, sep: string)
    requires ps != []
    ensures |Terminated(ps, sep)| >= |sep|
    ensures Terminated(ps, sep)[|Terminated(ps, sep)| - |sep|..] == sep
  {
    var n := |ps|;
    assert ps == ps[..n - 1] + [ps[n - 1]];
    TerminatedSnoc(ps[..n - 1], ps[n - 1], sep);
  }

  /** The trailing-separator rendering is the conventional join plus one separator. */
  lemma {:induction false} TerminatedIsJoinedPlusSeparator(ps: seq<string>, sep: string)
    requires ps != []
    ensures Terminated(ps, sep) == Joined(ps, sep) + sep
  {
    if |ps| == 1 {
      assert Terminated(ps[1..], sep) == "";
    } else {
      TerminatedIsJoinedPlusSeparator(ps[1..], sep);
    }
  }

  /** Index of the first `c` in `s`, or |s| when there is none. */
  function IndexOf(s: string, c: char): (i: nat)
    ensures i <= |s|
    ensures i < |s| ==> s[i] == c
    ensures forall j :: 0 <= j < i ==> s[j] != c
  {
    if s == [] then 0 else if s[0] == c then 0 else 1 + IndexOf(s[1..], c)
  }

  /**
    * Splits a rendered list back into its entries at every `c`; an
    * unterminated tail counts as one more entry.
    */
  function Fields(s: string, c: char): seq<string>
    decreases |s|
  {
    if s == [] then []
    else
      var i := IndexOf(s, c);
      if i == |s| then [s] else [s[..i]] + Fields(s[i + 1..], c)
  }

  /**
    * With a one-character separator that occurs in no entry, splitting the
    * rendering at that character gives back exactly the entries.
    */
  lemma {:induction false} FieldsOfTerminated(ps: seq<string>, c: char)
    requires forall k :: 0 <= k < |ps| ==> c !in ps[k]
    ensures Fields(Terminated(ps, [c]), c) == ps
  {
    if ps != [] {
      var rest := Terminated(ps[1..], [c]);
      var s := Terminated(ps, [c]);
      assert s == ps[0] + [c] + rest;
      assert c !in ps[0];
      assert IndexOf(s, c) == |ps[0]| by {
        assert s[|ps[0]|] == c;
        forall j | 0 <= j < |ps[0]| ensures s[j] != c {
          assert s[j] == ps[0][j];
        }
      }
      assert s[..|ps[0]|] == ps[0];
      assert s[|ps[0]| + 1..] == rest;
      FieldsOfTerminated(ps[1..], c);
    }
  }
}
