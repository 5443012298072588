/**
 * The fragments of JavaScript semantics the player code leans on: truthiness of
 * optional strings, `a || b`, string interpolation of `undefined`, array
 * `slice`/`splice`/`findIndex`, and `String.prototype.trim`/`startsWith`.
 */
module Js {
  import opened Wrappers

  /** JavaScript truthiness of an optional string: `undefined` and `""` are falsy. */
  predicate Truthy(o: Option<string>) {
    o.Some? && o.value != ""
  }

  /** `a || b` on optional strings. */
  function Or(a: Option<string>, b: Option<string>): Option<string> {
    if Truthy(a) then a else b
  }

  /** `a || "default"`: the value of `a` when truthy, else the default. */
  function OrDefault(a: Option<string>, default: string): string {
    if Truthy(a) then a.value else default
  }

  /** What a template literal `${x}` produces for an optional string. */
  function Show(o: Option<string>): string {
    match o
    case Some(s) => s
    case None => "undefined"
  }

  /** Reading `a[i]`: `undefined` outside the array. */
  function At<T>(a: seq<T>, i: int): Option<T> {
    if 0 <= i < |a| then Some(a[i]) else None
  }

  /** How `slice` and `splice` turn a relative start index into an absolute one. */
  function RelativeStart(len: nat, start: int): (k: nat)
    ensures k <= len
  {
    if start < 0 then (if len + start < 0 then 0 else len + start)
    else if start > len then len
    else start
  }

  /** `a.slice(start, a.length)`. */
  function Slice<T>(a: seq<T>, start: int): seq<T> {
    a[RelativeStart(|a|, start)..]
  }

  /** The sequence without its element at position `i`. */
  function RemoveAt<T>(a: seq<T>, i: nat): (r: seq<T>)
    requires i < |a|
    ensures |r| == |a| - 1
    ensures forall k :: 0 <= k < i ==> r[k] == a[k]
    ensures forall k :: i <= k < |r| ==> r[k] == a[k + 1]
  {
    a[..i] + a[i + 1..]
  }

  /** The sequence with `x` inserted so that it ends up at position `i`. */
  function InsertAt<T>(a: seq<T>, i: nat, x: T): (r: seq<T>)
    requires i <= |a|
    ensures |r| == |a| + 1
    ensures r[i] == x
    ensures forall k :: 0 <= k < i ==> r[k] == a[k]
    ensures forall k :: i < k < |r| ==> r[k] == a[k - 1]
  {
    a[..i] + [x] + a[i..]
  }

  /** `a.splice(i, 1)` for its effect on `a`: removes one element at the relative index, if any. */
  function SpliceRemove<T>(a: seq<T>, i: int): seq<T> {
    var k := RelativeStart(|a|, i);
    if k < |a| then RemoveAt(a, k) else a
  }

  /** `a.findIndex(p)`: the first position satisfying `p`, or -1. */
  function FindIndex<T>(a: seq<T>, p: T -> bool): (r: int)
    ensures -1 <= r < |a|
    ensures r == -1 <==> forall k :: 0 <= k < |a| ==> !p(a[k])
    ensures r != -1 ==> p(a[r]) && forall k :: 0 <= k < r ==> !p(a[k])
  {
    if |a| == 0 then -1
    else if p(a[0]) then 0
    else
      var k := FindIndex(a[1..], p);
      assert forall j :: 1 <= j < |a| ==> a[1..][j - 1] == a[j];
      if k == -1 then -1 else k + 1
  }

  /** The elements satisfying `p`, in order. */
  function Filter<T>(a: seq<T>, p: T -> bool): seq<T> {
    if |a| == 0 then [] else (if p(a[0]) then [a[0]] else []) + Filter(a[1..], p)
  }

  lemma {:induction false} FilterConcat<T>(a: seq<T>, b: seq<T>, p: T -> bool)
    ensures Filter(a + b, p) == Filter(a, p) + Filter(b, p)
  {
    if |a| > 0 {
      assert (a + b)[1..] == a[1..] + b;
      FilterConcat(a[1..], b, p);
    } else {
      assert a + b == b;
    }
  }

  /** Removing an element that fails `p` does not change what `p` selects. */
  lemma FilterRemoveAt<T>(a: seq<T>, i: nat, p: T -> bool)
    requires i < |a| && !p(a[i])
    ensures Filter(RemoveAt(a, i), p) == Filter(a, p)
  {
    assert a == a[..i] + ([a[i]] + a[i + 1..]);
    FilterConcat(a[..i], [a[i]] + a[i + 1..], p);
    FilterConcat([a[i]], a[i + 1..], p);
    FilterConcat(a[..i], a[i + 1..], p);
    assert Filter([a[i]], p) == [] by {
      assert [a[i]][1..] == [];
    }
  }

  /** `s.startsWith(prefix)`. */
  predicate StartsWith(s: string, prefix: string) {
    |prefix| <= |s| && s[..|prefix|] == prefix
  }

  /** `part` occurs in `s` starting at position `i`. */
  predicate OccursAt(s: string, part: string, i: int) {
    0 <= i && i + |part| <= |s| && s[i..i + |part|] == part
  }

  /** `s.includes(part)`. */
  predicate Includes(s: string, part: string) {
    exists i :: 0 <= i <= |s| && OccursAt(s, part, i)
  }

  /** The characters `String.prototype.trim` removes: white space and line terminators. */
  predicate IsSpace(c: char) {
    c == ' ' || c == '\t' || c == '\n' || c == '\r' || c == '\U{B}' || c == '\U{C}'
    || c == '\U{A0}' || c == '\U{1680}' || ('\U{2000}' <= c <= '\U{200A}')
    || c == '\U{2028}' || c == '\U{2029}' || c == '\U{202F}' || c == '\U{205F}'
    || c == '\U{3000}' || c == '\U{FEFF}'
  }

  function TrimStart(s: string): string {
    if |s| > 0 && IsSpace(s[0]) then TrimStart(s[1..]) else s
  }

  function TrimEnd(s: string): string {
    if |s| > 0 && IsSpace(s[|s| - 1]) then TrimEnd(s[..|s| - 1]) else s
  }

  /** `s.trim()`. */
  function Trim(s: string): string {
    TrimEnd(TrimStart(s))
  }
}
