/**
  The shared pieces of the bootstrap layer: the error kinds every stage
  returns, joining a list back into one string, and the check that no
  element of a list argument is empty.
 */
module Common {
  import opened Strings

  datatype Option<+T> = None | Some(value: T)

  /** Why `strconv` rejected a number: not a decimal integer, or one that
      does not fit in 64 bits. */
  datatype NumErrorKind = ErrSyntax | ErrRange

  /** The errors the core returns, one constructor per Go error type. */
  datatype Error =
    | ArgumentParsingError(msg: string)                       // common.ArgumentParsingError
    | NumError(funcName: string, num: string, err: NumErrorKind) // *strconv.NumError
    | PathError(op: string, path: string, msg: string)        // *fs.PathError, from filepath.Abs
    | BaseError(msg: string)                                  // common.BaseError

  /** A Go `(value, error)` pair in which exactly one side is meaningful. */
  datatype Result<+T> = Success(value: T) | Failure(error: Error)

  /** The elements of `parts` with `sep` between consecutive ones. */
  function Join(parts: seq<string>, sep: string): string
    requires |parts| >= 1
  {
    if |parts| == 1 then parts[0] else parts[0] + sep + Join(parts[1..], sep)
  }

  /** Sum of the lengths of the elements. */
  function TotalLength(parts: seq<string>): nat
  {
    if parts == [] then 0 else |parts[0]| + TotalLength(parts[1..])
  }

  /** Appending one more element adds one separator and that element. */
  lemma {:induction false} JoinSnoc(parts: seq<string>, x: string, sep: string)
    requires |parts| >= 1
    ensures Join(parts + [x], sep) == Join(parts, sep) + sep + x
    decreases |parts|
  {
    if |parts| > 1 {
      assert (parts + [x])[1..] == parts[1..] + [x];
      JoinSnoc(parts[1..], x, sep);
    }
  }

  /** No separator at either end and one between consecutive elements:
      the length is the elements' lengths plus `|parts| - 1` separators,
      and a single element is returned as it is. */
  lemma {:induction false} JoinShape(parts: seq<string>, sep: string)
    requires |parts| >= 1
    ensures |Join(parts, sep)| == TotalLength(parts) + (|parts| - 1) * |sep|
    ensures |parts| == 1 ==> Join(parts, sep) == parts[0]
    decreases |parts|
  {
    if |parts| > 1 {
      JoinShape(parts[1..], sep);
    }
  }

  /** Splitting the list at any inner boundary splits the joined string
      around a single separator. */
  lemma {:induction false} JoinAt(parts: seq<string>, k: nat, sep: string)
    requires 0 < k < |parts|
    ensures Join(parts, sep) == Join(parts[..k], sep) + sep + Join(parts[k..], sep)
    decreases k
  {
    if k > 1 {
      JoinAt(parts[1..], k - 1, sep);
      assert parts[1..][..k - 1] == parts[..k][1..];
      assert parts[1..][k - 1..] == parts[k..];
    }
  }

  /** common.ArrayToString: the first element, then `sep` and the next
      element for each further one. Go reads `array[0]` unconditionally,
      so the list must not be empty. */
  method ArrayToString(items: seq<string>, sep: string) returns (ans: string)
    requires |items| >= 1
    ensures ans == Join(items, sep)
  {
    ans := items[0];
    assert items[..1] == [items[0]];
    var i := 1;
    while i < |items|
      invariant 1 <= i <= |items|
      invariant ans == Join(items[..i], sep)
    {
      JoinSnoc(items[..i], items[i], sep);
      assert items[..i + 1] == items[..i] + [items[i]];
      ans := ans + sep + items[i];
      i := i + 1;
    }
    assert items[..i] == items;
  }

  /** No element of the list is the empty string. */
  predicate AllNonEmpty(items: seq<string>)
  {
    forall i :: 0 <= i < |items| ==> |items[i]| > 0
  }

  /** The message of CheckNonEmpty's error for the list argument `name`. */
  function EmptyElementMessage(name: string): string
  {
    "The " + name + " argument has an empty string"
  }

  /** common.CheckNonEmpty: scans the list and stops at the first empty
      element; no error when there is none (in particular for an empty
      list). */
  method CheckNonEmpty(items: seq<string>, name: string) returns (err: Option<Error>)
    ensures err.None? <==> AllNonEmpty(items)
    ensures err.Some? ==> err.value == ArgumentParsingError(EmptyElementMessage(name))
  {
    var i := 0;
    while i < |items|
      invariant 0 <= i <= |items|
      invariant forall k :: 0 <= k < i ==> |items[k]| > 0
    {
      if |items[i]| == 0 {
        return Some(ArgumentParsingError(EmptyElementMessage(name)));
      }
      i := i + 1;
    }
    return None;
  }

  /** The error of CheckNonEmpty names the offending list argument. */
  lemma EmptyElementMessageNamesField(name: string)
    ensures exists k :: SliceAt(EmptyElementMessage(name), k, name)
  {
    assert SliceAt(EmptyElementMessage(name), 4, name);
  }
}
