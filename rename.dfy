/**
 * serde's `rename_all` rules for enum variant names (`snake_case` and
 * `SCREAMING_SNAKE_CASE`), restricted to ASCII identifiers, which is all the
 * SDK's enums use.
 */
module RenameRules {

  predicate IsAsciiUpper(c: char) { 'A' <= c <= 'Z' }

  predicate IsAsciiLower(c: char) { 'a' <= c <= 'z' }

  function AsciiLower(c: char): char
  {
    if IsAsciiUpper(c) then (c as int + 32) as char else c
  }

  function AsciiUpper(c: char): char
  {
    if IsAsciiLower(c) then (c as int - 32) as char else c
  }

  /** What one character after the first becomes: an upper-case letter gets a `_` before it. */
  function SnakePiece(c: char): string
  {
    if IsAsciiUpper(c) then ['_', AsciiLower(c)] else [c]
  }

  function SnakeTail(s: string): string
  {
    if |s| == 0 then "" else SnakePiece(s[0]) + SnakeTail(s[1..])
  }

  /**
   * `rename_all = "snake_case"`: lower-case every letter and put `_` before
   * each upper-case letter other than the first character.
   */
  function SnakeCase(ident: string): string
  {
    if |ident| == 0 then "" else [AsciiLower(ident[0])] + SnakeTail(ident[1..])
  }

  lemma SnakeCaseCons(c: char, rest: string)
    ensures SnakeCase([c] + rest) == [AsciiLower(c)] + SnakeTail(rest)
  {
    assert ([c] + rest)[1..] == rest;
  }

  /** `str::to_ascii_uppercase`. */
  function ToAsciiUppercase(s: string): (r: string)
    ensures |r| == |s|
  {
    if |s| == 0 then "" else [AsciiUpper(s[0])] + ToAsciiUppercase(s[1..])
  }

  /** `rename_all = "SCREAMING_SNAKE_CASE"`: the `snake_case` form, upper-cased. */
  function ScreamingSnakeCase(ident: string): string
  {
    ToAsciiUppercase(SnakeCase(ident))
  }

  lemma {:induction false} SnakeTailAppend(a: string, b: string)
    ensures SnakeTail(a + b) == SnakeTail(a) + SnakeTail(b)
  {
    if |a| == 0 {
      assert a + b == b;
    } else {
      assert (a + b)[0] == a[0];
      assert (a + b)[1..] == a[1..] + b;
      SnakeTailAppend(a[1..], b);
      calc {
        SnakeTail(a + b);
        SnakePiece(a[0]) + SnakeTail(a[1..] + b);
        SnakePiece(a[0]) + (SnakeTail(a[1..]) + SnakeTail(b));
        (SnakePiece(a[0]) + SnakeTail(a[1..])) + SnakeTail(b);
      }
    }
  }

  /** A run without upper-case letters is left as it is. */
  lemma {:induction false} SnakeTailNoUpper(s: string)
    requires forall i :: 0 <= i < |s| ==> !IsAsciiUpper(s[i])
    ensures SnakeTail(s) == s
  {
    if |s| > 0 {
      SnakeTailNoUpper(s[1..]);
    }
  }

  /** An upper-case letter followed by a run without upper-case letters. */
  lemma SnakeTailWord(c: char, rest: string)
    requires IsAsciiUpper(c)
    requires forall i :: 0 <= i < |rest| ==> !IsAsciiUpper(rest[i])
    ensures SnakeTail([c] + rest) == ['_', AsciiLower(c)] + rest
  {
    assert ([c] + rest)[1..] == rest;
    SnakeTailNoUpper(rest);
  }

  /** Upper-casing is character by character. */
  lemma {:induction false} ToAsciiUppercaseAt(s: string, k: nat)
    requires k < |s|
    ensures ToAsciiUppercase(s)[k] == AsciiUpper(s[k])
  {
    if k > 0 {
      ToAsciiUppercaseAt(s[1..], k - 1);
    }
  }

  /** Two strings with the same characters at every position are equal. */
  lemma SameChars(a: string, b: string)
    requires |a| == |b|
    requires forall i :: 0 <= i < |a| ==> a[i] == b[i]
    ensures a == b
  {
  }

  /** A variant name made of one capitalised word: only the first letter changes. */
  lemma SnakeCaseWord(c: char, rest: string)
    requires forall i :: 0 <= i < |rest| ==> !IsAsciiUpper(rest[i])
    ensures SnakeCase([c] + rest) == [AsciiLower(c)] + rest
  {
    SnakeCaseCons(c, rest);
    SnakeTailNoUpper(rest);
  }

  /** A lower-case run followed by a capitalised word: one `_` goes in at the word. */
  lemma SnakeTailRunThenWord(r1: string, c2: char, r2: string)
    requires IsAsciiUpper(c2)
    requires forall i :: 0 <= i < |r1| ==> !IsAsciiUpper(r1[i])
    requires forall i :: 0 <= i < |r2| ==> !IsAsciiUpper(r2[i])
    ensures SnakeTail(r1 + ([c2] + r2)) == r1 + (['_', AsciiLower(c2)] + r2)
  {
    SnakeTailAppend(r1, [c2] + r2);
    SnakeTailNoUpper(r1);
    SnakeTailWord(c2, r2);
  }

  /** Two capitalised words run together become the lower-case words joined by `_`. */
  lemma SnakeCaseTwoWords(c1: char, r1: string, c2: char, r2: string)
    requires IsAsciiUpper(c2)
    requires forall i :: 0 <= i < |r1| ==> !IsAsciiUpper(r1[i])
    requires forall i :: 0 <= i < |r2| ==> !IsAsciiUpper(r2[i])
    ensures SnakeCase([c1] + (r1 + ([c2] + r2))) == [AsciiLower(c1)] + (r1 + (['_', AsciiLower(c2)] + r2))
  {
    SnakeCaseCons(c1, r1 + ([c2] + r2));
    SnakeTailRunThenWord(r1, c2, r2);
  }

  lemma {:induction false} ToAsciiUppercaseAppend(a: string, b: string)
    ensures ToAsciiUppercase(a + b) == ToAsciiUppercase(a) + ToAsciiUppercase(b)
  {
    if |a| == 0 {
      assert a + b == b;
    } else {
      assert (a + b)[0] == a[0];
      assert (a + b)[1..] == a[1..] + b;
      ToAsciiUppercaseAppend(a[1..], b);
    }
  }

  /** The tail of a `snake_case` name holds no upper-case letter. */
  lemma {:induction false} SnakeTailHasNoUpper(s: string)
    ensures forall i :: 0 <= i < |SnakeTail(s)| ==> !IsAsciiUpper(SnakeTail(s)[i])
    decreases |s|
  {
    if |s| > 0 {
      SnakeTailHasNoUpper(s[1..]);
      var piece, rest := SnakePiece(s[0]), SnakeTail(s[1..]);
      assert SnakeTail(s) == piece + rest;
      forall i | 0 <= i < |piece + rest|
        ensures !IsAsciiUpper((piece + rest)[i])
      {
        if i >= |piece| {
          assert (piece + rest)[i] == rest[i - |piece|];
        }
      }
    }
  }

  /** `snake_case` leaves no upper-case letter anywhere. */
  lemma SnakeCaseHasNoUpper(ident: string)
    ensures forall i :: 0 <= i < |SnakeCase(ident)| ==> !IsAsciiUpper(SnakeCase(ident)[i])
  {
    if |ident| > 0 {
      SnakeTailHasNoUpper(ident[1..]);
      var rest := SnakeTail(ident[1..]);
      forall i | 0 <= i < |SnakeCase(ident)|
        ensures !IsAsciiUpper(SnakeCase(ident)[i])
      {
        if i > 0 {
          assert SnakeCase(ident)[i] == rest[i - 1];
        }
      }
    }
  }

  /**
   * `SCREAMING_SNAKE_CASE` is `snake_case` upper-cased letter by letter,
   * so it has the same length and no lower-case letter.
   */
  lemma ScreamingSnakeCaseIsUpper(ident: string)
    ensures |ScreamingSnakeCase(ident)| == |SnakeCase(ident)|
    ensures forall i :: 0 <= i < |SnakeCase(ident)| ==>
      ScreamingSnakeCase(ident)[i] == AsciiUpper(SnakeCase(ident)[i]) && !IsAsciiLower(ScreamingSnakeCase(ident)[i])
  {
    forall i | 0 <= i < |SnakeCase(ident)|
      ensures ScreamingSnakeCase(ident)[i] == AsciiUpper(SnakeCase(ident)[i])
    {
      ToAsciiUppercaseAt(SnakeCase(ident), i);
    }
  }
}
