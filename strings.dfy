/**
  The three operations of Go's `strings` package that the configuration
  bootstrap relies on: splitting a list argument on commas, trimming
  spaces off a path or a property value, and upper-casing the mode
  constants.
 */
module Strings {

  /** The separator of a list argument on the command line. */
  const Comma: char := ','

  /** `strings.Split(s, ",")`: the pieces between commas, in order.
      An empty string still gives one (empty) piece. */
  function Split(s: string): (pieces: seq<string>)
    ensures |pieces| >= 1
    decreases |s|
  {
    if s == [] then [[]]
    else if s[0] == Comma then [[]] + Split(s[1..])
    else
      var rest := Split(s[1..]);
      [[s[0]] + rest[0]] + rest[1..]
  }

  /** Number of commas in `s`. */
  function CommaCount(s: string): nat
  {
    if s == [] then 0 else (if s[0] == Comma then 1 else 0) + CommaCount(s[1..])
  }

  /** No piece of a split contains the separator, and there is one more
      piece than there are separators. */
  lemma {:induction false} SplitPieces(s: string)
    ensures |Split(s)| == CommaCount(s) + 1
    ensures forall i :: 0 <= i < |Split(s)| ==> Comma !in Split(s)[i]
    decreases |s|
  {
    if s != [] {
      SplitPieces(s[1..]);
    }
  }

  /** A string that holds no comma is a single piece, and a comma after
      such a string starts a new piece. */
  lemma {:induction false} SplitAfterPiece(x: string, t: string)
    requires Comma !in x
    ensures Split(x) == [x]
    ensures Split(x + [Comma] + t) == [x] + Split(t)
    decreases |x|
  {
    if x != [] {
      SplitAfterPiece(x[1..], t);
      assert (x + [Comma] + t)[1..] == x[1..] + [Comma] + t;
      assert [x[0]] + x[1..] == x;
    } else {
      assert x + [Comma] + t == [Comma] + t;
    }
  }

  /** One character of `strings.ToUpper`, for ASCII letters. */
  function UpperChar(c: char): char
  {
    if 'a' <= c <= 'z' then (c as int - 32) as char else c
  }

  /** `strings.ToUpper` restricted to ASCII letters (the only strings it is
      applied to here are ASCII constants). */
  function ToUpper(s: string): (r: string)
    ensures |r| == |s|
    ensures forall i :: 0 <= i < |s| ==> r[i] == UpperChar(s[i])
  {
    seq(|s|, i requires 0 <= i < |s| => UpperChar(s[i]))
  }

  /** A string with no lower-case ASCII letter is its own upper case. */
  lemma ToUpperKeepsUpper(s: string)
    requires forall i :: 0 <= i < |s| ==> !('a' <= s[i] <= 'z')
    ensures ToUpper(s) == s
  {
  }

  predicate AllSpaces(s: string)
  {
    forall i :: 0 <= i < |s| ==> s[i] == ' '
  }

  /** Drops the leading spaces. */
  function TrimLeft(s: string): string
    decreases |s|
  {
    if s != [] && s[0] == ' ' then TrimLeft(s[1..]) else s
  }

  /** Drops the trailing spaces. */
  function TrimRight(s: string): string
    decreases |s|
  {
    if s != [] && s[|s| - 1] == ' ' then TrimRight(s[..|s| - 1]) else s
  }

  /** `strings.Trim(s, " ")`: drops the leading and the trailing spaces
      (only the space character, not tabs or newlines). */
  function Trim(s: string): string
  {
    TrimRight(TrimLeft(s))
  }

  lemma {:induction false} TrimLeftSpec(s: string)
    ensures TrimLeft(s) == [] <==> AllSpaces(s)
    ensures TrimLeft(s) == [] || TrimLeft(s)[0] != ' '
    ensures |TrimLeft(s)| <= |s| && TrimLeft(s) == s[|s| - |TrimLeft(s)|..]
    ensures AllSpaces(s[..|s| - |TrimLeft(s)|])
    decreases |s|
  {
    if s != [] && s[0] == ' ' {
      TrimLeftSpec(s[1..]);
      assert s[..|s| - |TrimLeft(s)|] == [s[0]] + s[1..][..|s| - 1 - |TrimLeft(s)|];
      assert AllSpaces(s) <==> AllSpaces(s[1..]) by {
        if AllSpaces(s[1..]) {
          forall i | 0 <= i < |s| ensures s[i] == ' ' {
            if i > 0 { assert s[1..][i - 1] == s[i]; }
          }
        }
      }
    }
  }

  lemma {:induction false} TrimRightSpec(s: string)
    ensures TrimRight(s) == [] <==> AllSpaces(s)
    ensures TrimRight(s) == [] || TrimRight(s)[|TrimRight(s)| - 1] != ' '
    ensures |TrimRight(s)| <= |s| && TrimRight(s) == s[..|TrimRight(s)|]
    ensures AllSpaces(s[|TrimRight(s)|..])
    decreases |s|
  {
    if s != [] && s[|s| - 1] == ' ' {
      var s' := s[..|s| - 1];
      TrimRightSpec(s');
      assert s[|TrimRight(s)|..] == s'[|TrimRight(s)|..] + [s[|s| - 1]];
      assert AllSpaces(s) <==> AllSpaces(s') by {
        if AllSpaces(s') {
          forall i | 0 <= i < |s| ensures s[i] == ' ' {
            if i < |s| - 1 { assert s'[i] == s[i]; }
          }
        }
      }
    }
  }

  /** `t` occurs in `s` at position `a`. */
  predicate SliceAt(s: string, a: int, t: string)
  {
    0 <= a <= |s| - |t| && s[a..a + |t|] == t
  }

  /** A trimmed string neither starts nor ends with a space, it is what
      remains of the input once a run of spaces is dropped at each end
      (nothing else is removed), and it is empty exactly when the input is
      all spaces. */
  lemma TrimSpec(s: string)
    ensures Trim(s) == [] <==> AllSpaces(s)
    ensures Trim(s) == [] || (Trim(s)[0] != ' ' && Trim(s)[|Trim(s)| - 1] != ' ')
    ensures exists a :: SliceAt(s, a, Trim(s)) && AllSpaces(s[..a]) && AllSpaces(s[a + |Trim(s)|..])
  {
    var l := TrimLeft(s);
    TrimLeftSpec(s);
    TrimRightSpec(l);
    var t := TrimRight(l);
    if l != [] {
      assert !AllSpaces(l) by { assert l[0] != ' '; }
      assert t[0] == l[0];
    }
    var a := |s| - |l|;
    assert s[a + |t|..] == l[|t|..];
    assert SliceAt(s, a, t) && AllSpaces(s[..a]) && AllSpaces(s[a + |t|..]);
  }
}
