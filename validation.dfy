/** The input check done when a locator is built: the string must start and end with `Y`,
    contain an `X`, and have a non-empty target shorter than the segment after the first `X`. */
module Validation {
  import opened Wrappers

  /** The four ways construction fails. EmptyInput is the index error the source raises
      when it looks at the first character of an empty string; the others are its three
      assertion messages, in the order they are checked. */
  datatype ValidationError = EmptyInput | ImproperDelimiters | NoTargetLocationPair | LengthMismatch

  /** The string the segments `units` stand for when glued back with `sep`. */
  function Join(units: seq<string>, sep: char): string
    requires |units| >= 1
    decreases |units|
  {
    if |units| == 1 then units[0] else units[0] + [sep] + Join(units[1..], sep)
  }

  /** `str.split(sep)` for a one-character separator: the maximal `sep`-free segments. */
  function Split(s: string, sep: char): (units: seq<string>)
    ensures |units| >= 1
    ensures forall k :: 0 <= k < |units| ==> sep !in units[k]
  {
    if |s| == 0 then [""]
    else
      var rest := Split(s[1..], sep);
      if s[0] == sep then
        [""] + rest
      else
        var units := [[s[0]] + rest[0]] + rest[1..];
        assert units[1..] == rest[1..];
        units
  }

  /** Gluing the segments of a split back together with the separator gives the input. */
  lemma {:induction false} SplitJoin(s: string, sep: char)
    ensures Join(Split(s, sep), sep) == s
  {
    if |s| > 0 {
      var rest := Split(s[1..], sep);
      SplitJoin(s[1..], sep);
      assert s == [s[0]] + s[1..];
      if s[0] != sep {
        var units := Split(s, sep);
        assert units[1..] == rest[1..];
        if |rest| > 1 {
          assert Join(rest, sep) == rest[0] + [sep] + Join(rest[1..], sep);
        }
      }
    }
  }

  /** Position of the first `c` in `s`, as `list.index` returns it. */
  function FirstIndex(s: string, c: char): (i: nat)
    requires c in s
    ensures i < |s| && s[i] == c && c !in s[..i]
  {
    if s[0] == c then 0
    else
      assert c in s[1..] by { assert s == [s[0]] + s[1..]; }
      var i := 1 + FirstIndex(s[1..], c);
      assert s[..i] == [s[0]] + s[1..][..i - 1];
      i
  }

  /** The part of `s` before its first `c` (all of `s` when there is none). */
  function UpTo(s: string, c: char): string {
    if c in s then s[..FirstIndex(s, c)] else s
  }

  /** `str.lstrip(c)`: drop the leading run of `c`. */
  function StripLeft(s: string, c: char): (r: string)
    ensures |r| <= |s| && r == s[|s| - |r|..]
    ensures r == [] || r[0] != c
    ensures forall i :: 0 <= i < |s| - |r| ==> s[i] == c
  {
    if |s| > 0 && s[0] == c then StripLeft(s[1..], c) else s
  }

  /** `str.rstrip(c)`: drop the trailing run of `c`. */
  function StripRight(s: string, c: char): (r: string)
    ensures |r| <= |s| && r == s[..|r|]
    ensures r == [] || r[|r| - 1] != c
    ensures forall i :: |r| <= i < |s| ==> s[i] == c
  {
    if |s| > 0 && s[|s| - 1] == c then StripRight(s[..|s| - 1], c) else s
  }

  /** `str.strip(c)`: empty exactly when `s` holds nothing but `c`; otherwise it neither
      starts nor ends with `c`. `StripSlice` states which slice of `s` it is. */
  function Strip(s: string, c: char): (r: string)
    ensures |r| <= |s|
    ensures r == [] <==> forall i :: 0 <= i < |s| ==> s[i] == c
    ensures r != [] ==> r[0] != c && r[|r| - 1] != c
  {
    var l := StripLeft(s, c);
    var r := StripRight(l, c);
    var a := |s| - |l|;
    assert l == s[a..];
    assert r != [] ==> r[0] == l[0] == s[a] && s[a] != c;
    assert r == [] ==> l == [] && a == |s|;
    r
  }

  /** The result of `Strip` is the slice of `s` that remains after dropping a leading run and
      a trailing run of `c`. */
  lemma StripSlice(s: string, c: char)
    ensures var r := Strip(s, c);
            exists a {:trigger s[a..]} :: 0 <= a <= |s| - |r| && r == s[a..][..|r|]
              && (forall i :: 0 <= i < a ==> s[i] == c) && (forall i :: a + |r| <= i < |s| ==> s[i] == c)
  {
    var l := StripLeft(s, c);
    var r := StripRight(l, c);
    var a := |s| - |l|;
    assert s[a..] == l && r == l[..|r|];
    assert forall i :: a + |r| <= i < |s| ==> s[i] == l[i - a];
    assert 0 <= a <= |s| - |r| && r == s[a..][..|r|]
      && (forall i :: 0 <= i < a ==> s[i] == c) && (forall i :: a + |r| <= i < |s| ==> s[i] == c);
  }

  /** `_validate_string`: on success the characters of the input, unchanged. */
  function Validate(s: string): (r: Result<seq<char>, ValidationError>)
    ensures r.Success? ==> r.value == s && 'X' in s
  {
    if |s| == 0 then Failure(EmptyInput)
    else if !(s[0] == 'Y' && s[|s| - 1] == 'Y') then Failure(ImproperDelimiters)
    else
      var units := Split(s, 'X');
      SplitFirst(s, 'X');
      var target := Strip(units[0], 'Y');
      if !(|units| > 1 && |target| > 0) then Failure(NoTargetLocationPair)
      else if !(0 < |target| < |units[1]|) then Failure(LengthMismatch)
      else Success(s)
  }

  /** The first segment of a split is the text before the first separator, and the remaining
      segments are the split of the text after it. */
  lemma {:induction false} SplitFirst(s: string, sep: char)
    ensures Split(s, sep)[0] == UpTo(s, sep)
    ensures sep in s <==> |Split(s, sep)| > 1
    ensures sep in s ==> Split(s, sep)[1..] == Split(s[FirstIndex(s, sep) + 1..], sep)
  {
    if |s| == 0 {
    } else if s[0] == sep {
      assert FirstIndex(s, sep) == 0;
    } else {
      SplitFirst(s[1..], sep);
      assert s == [s[0]] + s[1..];
      assert sep in s <==> sep in s[1..];
      if sep in s {
        var i := FirstIndex(s[1..], sep);
        assert FirstIndex(s, sep) == i + 1;
        assert s[i + 2..] == s[1..][i + 1..];
        assert s[..i + 1] == [s[0]] + s[1..][..i];
      }
    }
  }

  /** The validator accepts exactly when the string starts and ends with `Y`, contains an
      `X`, and the `Y`-stripped text before the first `X` is non-empty and shorter than the
      text between the first `X` and the next one (or the end). */
  lemma ValidateIff(s: string)
    ensures Validate(s).Success? <==>
              && |s| > 0 && s[0] == 'Y' && s[|s| - 1] == 'Y' && 'X' in s
              && var i := FirstIndex(s, 'X');
                 0 < |Strip(s[..i], 'Y')| < |UpTo(s[i + 1..], 'X')|
  {
    if |s| > 0 && s[0] == 'Y' && s[|s| - 1] == 'Y' && 'X' in s {
      ValidateLength(s);
    } else if |s| > 0 && s[0] == 'Y' && s[|s| - 1] == 'Y' {
      ValidateNoTarget(s);
    } else {
      ValidateDelimiters(s);
    }
  }

  /** For a `Y`-delimited string with an `X`, the validator accepts exactly when the stripped
      target is non-empty and shorter than the first location segment, and fails the length
      check exactly when the target is non-empty but not shorter. */
  lemma ValidateLength(s: string)
    requires |s| > 0 && s[0] == 'Y' && s[|s| - 1] == 'Y' && 'X' in s
    ensures var i := FirstIndex(s, 'X');
            var target := Strip(s[..i], 'Y');
            var first := UpTo(s[i + 1..], 'X');
            && (Validate(s).Success? <==> 0 < |target| < |first|)
            && (Validate(s) == Failure(LengthMismatch) <==> 0 < |target| && |first| <= |target|)
  {
    FirstTwoUnits(s, 'X');
  }

  /** When the separator occurs, the first two segments of a split are the text before the
      first separator and the text between it and the next one (or the end). */
  lemma FirstTwoUnits(s: string, sep: char)
    requires sep in s
    ensures var units := Split(s, sep);
            var i := FirstIndex(s, sep);
            |units| > 1 && units[0] == s[..i] && units[1] == UpTo(s[i + 1..], sep)
  {
    var i := FirstIndex(s, sep);
    SplitFirst(s, sep);
    SplitFirst(s[i + 1..], sep);
    assert Split(s, sep)[1] == Split(s, sep)[1..][0];
  }

  /** An empty string and a string not delimited by `Y` fail the first two checks. */
  lemma ValidateDelimiters(s: string)
    ensures Validate(s) == Failure(EmptyInput) <==> |s| == 0
    ensures Validate(s) == Failure(ImproperDelimiters) <==> |s| > 0 && (s[0] != 'Y' || s[|s| - 1] != 'Y')
  {
    if |s| > 0 && s[0] == 'Y' && s[|s| - 1] == 'Y' {
      SplitFirst(s, 'X');
    }
  }

  /** A `Y`-delimited string fails the third check exactly when it has no `X` or nothing but
      `Y` before its first `X`. */
  lemma {:induction false} ValidateNoTarget(s: string)
    requires |s| > 0 && s[0] == 'Y' && s[|s| - 1] == 'Y'
    ensures Validate(s) == Failure(NoTargetLocationPair) <==>
              'X' !in s || forall k :: 0 <= k < FirstIndex(s, 'X') ==> s[k] == 'Y'
  {
    SplitFirst(s, 'X');
    if 'X' in s {
      var i := FirstIndex(s, 'X');
      var units := Split(s, 'X');
      assert units[0] == s[..i];
      var target := Strip(s[..i], 'Y');
      assert Validate(s) == Failure(NoTargetLocationPair) <==> target == [];
      assert target == [] <==> forall k :: 0 <= k < i ==> s[k] == 'Y' by {
        assert forall k :: 0 <= k < i ==> s[..i][k] == s[k];
      }
    }
  }
}
