/**
 The small part of JavaScript's runtime semantics the adapter relies on:
 `undefined` as `Option`, thrown values as `Result` failures, truthiness of
 strings, template-literal conversion, and the string built-ins
 `indexOf`, `substring` and `trim`.
 */
module JsRuntime {

  /** A value that may be missing. `None` stands for both `undefined` and
      `null` wherever the code cannot tell them apart: a truthiness test,
      `x || fallback`, or a property read that throws on either. */
  datatype Option<+T> = None | Some(value: T)

  /** A value whose `undefined` and `null` the code does tell apart: a
      template literal prints them differently. */
  datatype Nullable<+T> = Undefined | Null | Defined(value: T)

  /** The outcome of a call that may throw. */
  datatype Result<+T, +E> = Ok(value: T) | Err(error: E)

  /** What a call can throw: a bare string (`throw '...'`), a runtime
      `TypeError` (a property read on `undefined`), or an `Error` object
      with its `name` set. */
  datatype Thrown =
    | ThrownString(message: string)
    | TypeError
    | NamedError(name: string, message: string)

  /** JavaScript truthiness of an optional string: `undefined` and `""` are falsy. */
  predicate Truthy(s: Option<string>)
  {
    s.Some? && s.value != ""
  }

  /** `s || fallback` for an optional string. */
  function OrElse(s: Option<string>, fallback: string): (r: string)
    ensures Truthy(s) ==> r == s.value
    ensures !Truthy(s) ==> r == fallback
  {
    if Truthy(s) then s.value else fallback
  }

  /** The text a template literal `${s}` produces for a string, `undefined`
      or `null`. */
  function TemplateText(s: Nullable<string>): string
  {
    match s
    case Defined(v) => v
    case Undefined => "undefined"
    case Null => "null"
  }

  /** WhiteSpace and LineTerminator code points of ECMAScript 2017 (sections
      11.2 and 11.3): exactly the characters `String.prototype.trim` strips. */
  const TrimmableChars: set<char> := {
    '\U{9}', '\U{B}', '\U{C}', ' ', '\U{A0}', '\U{FEFF}', '\U{1680}',
    '\U{2000}', '\U{2001}', '\U{2002}', '\U{2003}', '\U{2004}', '\U{2005}',
    '\U{2006}', '\U{2007}', '\U{2008}', '\U{2009}', '\U{200A}',
    '\U{202F}', '\U{205F}', '\U{3000}',
    '\n', '\r', '\U{2028}', '\U{2029}'}

  predicate IsTrimmable(c: char)
  {
    c in TrimmableChars
  }

  /** `s[a..b]` is `s` with its trimmable prefix and suffix cut off. */
  ghost predicate IsTrimCut(s: string, a: int, b: int)
  {
    && 0 <= a <= b <= |s|
    && (forall i :: 0 <= i < a ==> IsTrimmable(s[i]))
    && (forall i :: b <= i < |s| ==> IsTrimmable(s[i]))
    && (a < b ==> !IsTrimmable(s[a]) && !IsTrimmable(s[b - 1]))
  }

  /** `r` is what remains of `s` once its trimmable prefix and suffix are cut. */
  ghost predicate IsTrimOf(r: string, s: string)
  {
    exists a, b :: IsTrimCut(s, a, b) && r == s[a..b]
  }

  /** The first position at or after `i` whose character is not trimmable
      (`|s|` if there is none). */
  function TrimStart(s: string, i: nat): (a: nat)
    requires i <= |s|
    ensures i <= a <= |s|
    ensures forall k :: i <= k < a ==> IsTrimmable(s[k])
    ensures a < |s| ==> !IsTrimmable(s[a])
    decreases |s| - i
  {
    if i == |s| || !IsTrimmable(s[i]) then i else TrimStart(s, i + 1)
  }

  /** The position just after the last character before `hi` that is not
      trimmable, going no lower than `lo`. */
  function TrimEnd(s: string, lo: nat, hi: nat): (b: nat)
    requires lo <= hi <= |s|
    ensures lo <= b <= hi
    ensures forall k :: b <= k < hi ==> IsTrimmable(s[k])
    ensures lo < b ==> !IsTrimmable(s[b - 1])
    decreases hi
  {
    if hi == lo || !IsTrimmable(s[hi - 1]) then hi else TrimEnd(s, lo, hi - 1)
  }

  /** `String.prototype.trim`. */
  function Trim(s: string): (r: string)
    ensures IsTrimOf(r, s)
    ensures |r| <= |s|
  {
    var a := TrimStart(s, 0);
    var b := TrimEnd(s, a, |s|);
    assert IsTrimCut(s, a, b);
    s[a..b]
  }

  /** A non-empty cut lies inside every other cut of the same string. */
  lemma TrimCutInside(s: string, a1: int, b1: int, a2: int, b2: int)
    requires IsTrimCut(s, a1, b1) && IsTrimCut(s, a2, b2)
    ensures a1 < b1 ==> a2 <= a1 && b1 <= b2
  {
    if a1 < b1 {
      assert !IsTrimmable(s[a1]) && !IsTrimmable(s[b1 - 1]);
    }
  }

  /** There is only one way to cut a string's trimmable ends. */
  lemma TrimCutUnique(s: string, a1: int, b1: int, a2: int, b2: int)
    requires IsTrimCut(s, a1, b1) && IsTrimCut(s, a2, b2)
    ensures s[a1..b1] == s[a2..b2]
  {
    TrimCutInside(s, a1, b1, a2, b2);
    TrimCutInside(s, a2, b2, a1, b1);
  }

  /** Trimming is unique: only one string is the trim of `s`. */
  lemma TrimOfUnique(r1: string, r2: string, s: string)
    requires IsTrimOf(r1, s) && IsTrimOf(r2, s)
    ensures r1 == r2
  {
    var a1, b1 :| IsTrimCut(s, a1, b1) && r1 == s[a1..b1];
    var a2, b2 :| IsTrimCut(s, a2, b2) && r2 == s[a2..b2];
    TrimCutUnique(s, a1, b1, a2, b2);
  }

  /** Neither the first nor the last character of `s` is trimmable. */
  predicate HasNoTrimmableEnds(s: string)
  {
    s == [] || (!IsTrimmable(s[0]) && !IsTrimmable(s[|s| - 1]))
  }

  /** Any cut of the trimmable ends gives the trim. */
  lemma TrimByCut(s: string, a: int, b: int)
    requires IsTrimCut(s, a, b)
    ensures Trim(s) == s[a..b]
  {
    TrimOfUnique(Trim(s), s[a..b], s);
  }

  /** A space added at either end of an untrimmed string is trimmed away. */
  lemma TrimDropsPaddingSpaces(s: string, t: string)
    requires HasNoTrimmableEnds(s) && HasNoTrimmableEnds(t)
    ensures Trim(s + " ") == s
    ensures Trim(" " + t) == t
  {
    var before := s + " ";
    assert before[|s|] == ' ';
    assert s != [] ==> before[0] == s[0] && before[|s| - 1] == s[|s| - 1];
    assert IsTrimCut(before, 0, |s|);
    TrimByCut(before, 0, |s|);
    assert before[..|s|] == s;
    var after := " " + t;
    assert after[0] == ' ';
    assert t != [] ==> after[1] == t[0] && after[|after| - 1] == t[|t| - 1];
    assert IsTrimCut(after, 1, |after|);
    TrimByCut(after, 1, |after|);
    assert after[1..] == t;
  }

  /** Trimming twice is trimming once. */
  lemma TrimIdempotent(s: string)
    ensures Trim(Trim(s)) == Trim(s)
  {
    var r := Trim(s);
    assert IsTrimOf(r, r) by {
      var a, b :| IsTrimCut(s, a, b) && r == s[a..b];
      assert r == r[0..|r|];
      assert IsTrimCut(r, 0, |r|);
    }
    TrimOfUnique(Trim(r), r, r);
  }

  /** `s.indexOf(c)` for a one-character pattern: the first position of `c`, or -1. */
  function IndexOf(s: string, c: char): (r: int)
    ensures -1 <= r < |s|
    ensures r == -1 <==> c !in s
    ensures 0 <= r ==> s[r] == c && c !in s[..r]
  {
    if |s| == 0 then -1
    else if s[0] == c then 0
    else
      var k := IndexOf(s[1..], c);
      if k == -1 then -1 else k + 1
  }

  /** Clamps a `substring` argument into `[0, len]`. */
  function ClampIndex(i: int, len: nat): nat
  {
    if i < 0 then 0 else if i > len then len else i
  }

  /** `s.substring(start, end)`: both arguments are clamped into range and
      swapped when `start` exceeds `end`. */
  function Substring(s: string, start: int, end: int): string
  {
    var a := ClampIndex(start, |s|);
    var b := ClampIndex(end, |s|);
    if a <= b then s[a..b] else s[b..a]
  }

  /** `s.substring(start)`: up to the end of the string. */
  function SubstringFrom(s: string, start: int): string
  {
    Substring(s, start, |s|)
  }
}
