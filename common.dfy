/**
 * Helpers shared by the whole model: the wrappers that stand for Java's
 * `null` and exceptions, the values the option maps hold, and the few
 * java.lang.String / StringUtils operations the source relies on.
 */
module Common {

  /** A value that Java may hold as `null` (None). */
  datatype Option<T> = None | Some(value: T) {
    function GetOr(default: T): T {
      if Some? then value else default
    }
  }

  /** The outcome of an operation that may throw: the message of the exception on failure. */
  datatype Result<T> = Ok(value: T) | Err(message: string)

  /** An `Option<?>` of the option registry, identified by its constant name. */
  datatype OptionKey = OptionKey(name: string)

  /** The `Object` values held by the configuration maps. */
  datatype Value =
    | StringValue(s: string)
    | BooleanValue(b: bool)
    | IntegerValue(i: int)
    | ObjectValue(description: string)

  // ---------------------------------------------------------------------
  // Blank strings, trimming, case

  /** Character.isWhitespace, restricted to the characters below U+0080. */
  predicate IsWhitespace(c: char) {
    c == ' ' || ('\t' <= c <= '\r') || ('\U{1C}' <= c <= '\U{1F}')
  }

  /** Empty or whitespace only. */
  predicate IsBlankText(s: string) {
    forall i | 0 <= i < |s| :: IsWhitespace(s[i])
  }

  /** StringUtils.isBlank: null, empty, or whitespace only. */
  predicate IsBlank(s: Option<string>) {
    s.None? || IsBlankText(s.value)
  }

  /** The characters String.trim removes from both ends. */
  predicate Trimmed(c: char) {
    c <= ' '
  }

  function TrimStart(s: string): (r: string)
    ensures |r| <= |s| && r == s[|s| - |r|..]
    ensures forall k | 0 <= k < |s| - |r| :: Trimmed(s[k])
    ensures r == [] || !Trimmed(r[0])
  {
    if |s| > 0 && Trimmed(s[0]) then TrimStart(s[1..]) else s
  }

  function TrimEnd(s: string): (r: string)
    ensures |r| <= |s| && r == s[..|r|]
    ensures forall k | |r| <= k < |s| :: Trimmed(s[k])
    ensures r == [] || !Trimmed(r[|r| - 1])
  {
    if |s| > 0 && Trimmed(s[|s| - 1]) then TrimEnd(s[..|s| - 1]) else s
  }

  /** String.trim: the longest infix of `s` that neither starts nor ends with a character <= ' '. */
  function Trim(s: string): (r: string)
  {
    TrimEnd(TrimStart(s))
  }

  function UpperChar(c: char): char {
    if 'a' <= c <= 'z' then (c as int - 32) as char else c
  }

  function LowerChar(c: char): char {
    if 'A' <= c <= 'Z' then (c as int + 32) as char else c
  }

  /** String.toUpperCase, for the Latin letters a-z. */
  function ToUpper(s: string): (r: string)
    ensures |r| == |s|
  {
    seq(|s|, i requires 0 <= i < |s| => UpperChar(s[i]))
  }

  /** String.toLowerCase, for the Latin letters A-Z. */
  function ToLower(s: string): (r: string)
    ensures |r| == |s|
  {
    seq(|s|, i requires 0 <= i < |s| => LowerChar(s[i]))
  }

  /** Upper-casing leaves a string without lower-case letters as it is. */
  lemma ToUpperKeepsUpper(s: string)
    requires forall i | 0 <= i < |s| :: !('a' <= s[i] <= 'z')
    ensures ToUpper(s) == s
  {
  }

  /** Upper-casing undoes lower-casing on a string of capital letters. */
  lemma ToUpperUndoesToLower(s: string)
    requires forall i | 0 <= i < |s| :: 'A' <= s[i] <= 'Z'
    ensures ToUpper(ToLower(s)) == s
  {
  }

  /** Trimming leaves a string that neither starts nor ends with a character <= ' ' as it is. */
  lemma TrimKeepsUnpadded(s: string)
    requires s != [] ==> !Trimmed(s[0]) && !Trimmed(s[|s| - 1])
    ensures Trim(s) == s
  {
  }

  /** Java's rendering of a possibly-null String inside a concatenation. */
  function JavaText(s: Option<string>): string {
    if s.Some? then s.value else "null"
  }

  function BoolText(b: bool): string {
    if b then "true" else "false"
  }

  // ---------------------------------------------------------------------
  // Splitting and joining

  /** Every piece of `s` between two occurrences of `sep` (String.split with a negative limit). */
  function SplitAll(s: string, sep: char): (r: seq<string>)
    ensures |r| >= 1
    decreases |s|
  {
    if s == [] then [[]]
    else
      var rest := SplitAll(s[1..], sep);
      if s[0] == sep then [[]] + rest else [[s[0]] + rest[0]] + rest[1..]
  }

  /** Drops the empty strings at the end of `parts`. */
  function DropTrailingEmpty(parts: seq<string>): (r: seq<string>)
    ensures |r| <= |parts| && r == parts[..|r|]
    ensures r == [] || r[|r| - 1] != []
    ensures forall k | |r| <= k < |parts| :: parts[k] == []
  {
    if |parts| > 0 && parts[|parts| - 1] == [] then DropTrailingEmpty(parts[..|parts| - 1]) else parts
  }

  /**
   * String.split(sep) on a single-character separator: when `sep` does not
   * occur the result is `[s]`; otherwise the pieces, without trailing empty ones.
   */
  function JavaSplit(s: string, sep: char): seq<string> {
    if sep !in s then [s] else DropTrailingEmpty(SplitAll(s, sep))
  }

  /** StringUtils.join: the parts separated by `sep`. */
  function Join(parts: seq<string>, sep: string): string {
    if |parts| == 0 then ""
    else if |parts| == 1 then parts[0]
    else parts[0] + sep + Join(parts[1..], sep)
  }

  /** The concatenation of all fragments, in order. */
  function Concat(parts: seq<string>): string {
    if parts == [] then "" else Concat(parts[..|parts| - 1]) + parts[|parts| - 1]
  }

  lemma {:induction false} SplitAllPiecesAvoidSeparator(s: string, sep: char)
    ensures forall i | 0 <= i < |SplitAll(s, sep)| :: sep !in SplitAll(s, sep)[i]
    decreases |s|
  {
    if s != [] {
      SplitAllPiecesAvoidSeparator(s[1..], sep);
    }
  }

  /** Joining the pieces of a split with the separator gives back the original string. */
  lemma {:induction false} JoinSplitAll(s: string, sep: char)
    ensures Join(SplitAll(s, sep), [sep]) == s
    decreases |s|
  {
    if s != [] {
      var rest := SplitAll(s[1..], sep);
      JoinSplitAll(s[1..], sep);
      if s[0] == sep {
        assert SplitAll(s, sep) == [[]] + rest;
        var empty: string := [];
        assert empty + [sep] + Join(rest, [sep]) == s;
      } else {
        var r := SplitAll(s, sep);
        assert r == [[s[0]] + rest[0]] + rest[1..];
        if |rest| == 1 {
          assert Join(rest, [sep]) == rest[0];
        } else {
          assert Join(rest, [sep]) == rest[0] + [sep] + Join(rest[1..], [sep]);
          assert r[1..] == rest[1..];
        }
      }
    }
  }

  /** A string without the separator splits into itself. */
  lemma {:induction false} SplitAllNoSeparator(s: string, sep: char)
    requires sep !in s
    ensures SplitAll(s, sep) == [s]
    decreases |s|
  {
    if s != [] {
      assert s[0] != sep && sep !in s[1..];
      SplitAllNoSeparator(s[1..], sep);
      assert [s[0]] + s[1..] == s;
    }
  }

  /** Splitting `x sep y`, where `x` has no separator, yields `x` and then the pieces of `y`. */
  lemma {:induction false} SplitAllFirstPiece(x: string, y: string, sep: char)
    requires sep !in x
    ensures SplitAll(x + [sep] + y, sep) == [x] + SplitAll(y, sep)
    decreases |x|
  {
    var s := x + [sep] + y;
    if x == [] {
      assert s[1..] == y;
    } else {
      assert s[1..] == x[1..] + [sep] + y;
      SplitAllFirstPiece(x[1..], y, sep);
      assert [x[0]] + x[1..] == x;
    }
  }

  /** Splitting undoes joining, when no part contains the separator. */
  lemma {:induction false} SplitAllJoin(parts: seq<string>, sep: char)
    requires |parts| >= 1
    requires forall i | 0 <= i < |parts| :: sep !in parts[i]
    ensures SplitAll(Join(parts, [sep]), sep) == parts
    decreases |parts|
  {
    if |parts| == 1 {
      SplitAllNoSeparator(parts[0], sep);
    } else {
      SplitAllJoin(parts[1..], sep);
      SplitAllFirstPiece(parts[0], Join(parts[1..], [sep]), sep);
      assert [parts[0]] + parts[1..] == parts;
    }
  }

  /** Appending the next fragment to text holding a prefix's concatenation extends the prefix by one. */
  lemma ConcatNext(head: string, parts: seq<string>, i: nat, text: string)
    requires i < |parts| && text == head + Concat(parts[..i])
    ensures text + parts[i] == head + Concat(parts[..i + 1])
  {
    assert parts[..i + 1][..i] == parts[..i];
    assert (head + Concat(parts[..i])) + parts[i] == head + (Concat(parts[..i]) + parts[i]);
  }

  lemma {:induction false} ConcatAppend(a: seq<string>, b: seq<string>)
    ensures Concat(a + b) == Concat(a) + Concat(b)
    decreases |b|
  {
    if b == [] {
      assert a + b == a;
    } else {
      var b', last := b[..|b| - 1], b[|b| - 1];
      var x, y := Concat(a), Concat(b');
      ConcatAppend(a, b');
      calc {
        Concat(a + b);
      == { assert (a + b)[..|a + b| - 1] == a + b' && (a + b)[|a + b| - 1] == last; }
        (x + y) + last;
      == { assert (x + y) + last == x + (y + last); }
        x + Concat(b);
      }
    }
  }
}
