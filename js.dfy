/** The few JavaScript built-ins the core relies on, with their exact semantics. */
module Js {
  import opened Wrappers

  /** `s.slice(start)`: a negative start counts from the end; the start is clamped to [0, |s|]. */
  function SliceFrom<T>(s: seq<T>, start: int): (r: seq<T>)
    ensures |r| <= |s|
  {
    var from := if start < 0 then (if |s| + start < 0 then 0 else |s| + start)
                else (if start > |s| then |s| else start);
    s[from..]
  }

  function Min(a: int, b: int): int { if a <= b then a else b }

  /** `s.slice(-k)` for k >= 1 keeps the last min(k, |s|) elements, in order. */
  lemma SliceFromNegativeKeepsLast<T>(s: seq<T>, k: int)
    requires k >= 1
    ensures |SliceFrom(s, -k)| == Min(k, |s|)
    ensures SliceFrom(s, -k) == s[|s| - Min(k, |s|)..]
  {
  }

  /** Since -0 is 0 in JavaScript, `s.slice(-0)` keeps every element. */
  lemma SliceFromZeroKeepsAll<T>(s: seq<T>)
    ensures SliceFrom(s, -0) == s
  {
  }

  /** A string is truthy exactly when it is not empty. */
  predicate Truthy(s: string) { s != "" }

  /** An optional string is truthy when present and not empty (undefined / null / '' are falsy). */
  predicate TruthyOpt(s: Option<string>) { s.Some? && s.value != "" }

  function ToLowerChar(c: char): char {
    if 'A' <= c <= 'Z' then (c as int + 32) as char else c
  }

  /** `s.toLowerCase()`, restricted to ASCII letters. */
  function ToLower(s: string): (r: string)
    ensures |r| == |s|
    ensures forall i :: 0 <= i < |s| ==> r[i] == ToLowerChar(s[i])
  {
    if s == [] then [] else [ToLowerChar(s[0])] + ToLower(s[1..])
  }

  predicate StartsWith(s: string, prefix: string) {
    |prefix| <= |s| && s[..|prefix|] == prefix
  }

  predicate EndsWith(s: string, suffix: string) {
    |suffix| <= |s| && s[|s| - |suffix|..] == suffix
  }

  predicate IsDigit(c: char) { '0' <= c <= '9' }

  /** `s.split(sep)` for a one-character separator: at least one part, empty parts kept. */
  function Split(s: string, sep: char): (parts: seq<string>)
    ensures |parts| >= 1
    decreases |s|
  {
    if s == [] then [""]
    else if s[0] == sep then [""] + Split(s[1..], sep)
    else
      var rest := Split(s[1..], sep);
      [[s[0]] + rest[0]] + rest[1..]
  }

  /** `parts.join(sep)`. */
  function Join(parts: seq<string>, sep: char): string
    requires |parts| >= 1
  {
    if |parts| == 1 then parts[0] else parts[0] + [sep] + Join(parts[1..], sep)
  }

  lemma {:induction false} JoinSplit(s: string, sep: char)
    ensures Join(Split(s, sep), sep) == s
    decreases |s|
  {
    if s == [] {
    } else if s[0] == sep {
      JoinSplit(s[1..], sep);
      var rest := Split(s[1..], sep);
      assert Split(s, sep) == [""] + rest;
      assert ([""] + rest)[1..] == rest;
    } else {
      JoinSplit(s[1..], sep);
      var rest := Split(s[1..], sep);
      var parts := [[s[0]] + rest[0]] + rest[1..];
      assert Split(s, sep) == parts;
      if |rest| == 1 {
        assert Join(parts, sep) == [s[0]] + rest[0];
      } else {
        assert parts[1..] == rest[1..];
        assert Join(rest, sep) == rest[0] + [sep] + Join(rest[1..], sep);
        assert Join(parts, sep) == [s[0]] + rest[0] + [sep] + Join(rest[1..], sep);
      }
      assert [s[0]] + s[1..] == s;
    }
  }

  lemma {:induction false} SplitJoin(parts: seq<string>, sep: char)
    requires |parts| >= 1
    requires forall i :: 0 <= i < |parts| ==> sep !in parts[i]
    ensures Split(Join(parts, sep), sep) == parts
    decreases |parts|, |parts[0]|
  {
    if parts[0] == [] {
      if |parts| == 1 {
      } else {
        var tail := Join(parts[1..], sep);
        assert Join(parts, sep) == [sep] + tail;
        SplitJoin(parts[1..], sep);
        assert ([sep] + tail)[1..] == tail;
        assert [""] + parts[1..] == parts;
      }
    } else {
      var c := parts[0][0];
      assert c != sep by { assert c == parts[0][0]; }
      var shorter := [parts[0][1..]] + parts[1..];
      forall i | 0 <= i < |shorter| ensures sep !in shorter[i] {
        if i == 0 {
          assert forall x :: x in parts[0][1..] ==> x in parts[0];
        } else {
          assert shorter[i] == parts[i];
        }
      }
      SplitJoin(shorter, sep);
      var j := Join(parts, sep);
      if |parts| == 1 {
        assert j == parts[0];
        assert Join(shorter, sep) == parts[0][1..];
      } else {
        assert shorter[1..] == parts[1..];
        assert Join(shorter, sep) == parts[0][1..] + [sep] + Join(parts[1..], sep);
      }
      assert j == [c] + Join(shorter, sep);
      assert j[0] == c && j[1..] == Join(shorter, sep);
      var rest := Split(j[1..], sep);
      assert rest == shorter;
      assert [c] + parts[0][1..] == parts[0];
      assert shorter[1..] == parts[1..];
      assert Split(j, sep) == [[c] + rest[0]] + rest[1..];
      assert [[c] + rest[0]] + rest[1..] == parts;
    }
  }

  predicate AllDigits(s: string) {
    forall i :: 0 <= i < |s| ==> IsDigit(s[i])
  }

  /** A string whose parts around `sep` are all digit runs is made of digits and `sep` only. */
  lemma {:induction false} SplitIntoDigitsOnly(s: string, sep: char)
    requires forall k :: 0 <= k < |Split(s, sep)| ==> AllDigits(Split(s, sep)[k])
    ensures forall i :: 0 <= i < |s| ==> IsDigit(s[i]) || s[i] == sep
    decreases |s|
  {
    if s != [] {
      var rest := Split(s[1..], sep);
      if s[0] == sep {
        assert Split(s, sep) == [""] + rest;
        forall k | 0 <= k < |rest| ensures AllDigits(rest[k]) {
          assert rest[k] == Split(s, sep)[k + 1];
        }
      } else {
        var parts := Split(s, sep);
        assert parts == [[s[0]] + rest[0]] + rest[1..];
        assert parts[0][0] == s[0];
        forall k | 0 <= k < |rest| ensures AllDigits(rest[k]) {
          if k == 0 {
            assert forall j :: 0 <= j < |rest[0]| ==> rest[0][j] == parts[0][j + 1];
          } else {
            assert rest[k] == parts[k];
          }
        }
      }
      SplitIntoDigitsOnly(s[1..], sep);
      forall i | 0 <= i < |s| ensures IsDigit(s[i]) || s[i] == sep {
        if i > 0 { assert s[i] == s[1..][i - 1]; }
      }
    }
  }

  /** Lower-casing leaves a string without ASCII capitals unchanged. */
  lemma ToLowerWithoutCapitals(s: string)
    requires forall i :: 0 <= i < |s| ==> !('A' <= s[i] <= 'Z')
    ensures ToLower(s) == s
  {
    assert forall i :: 0 <= i < |s| ==> ToLower(s)[i] == s[i];
  }
}
