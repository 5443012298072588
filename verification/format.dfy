/**
 * The string helpers of components/Component.jsx: `formatTitle` for home-feed
 * section keys, the home-feed section filter and naming, and `formatTime` for a
 * whole number of seconds.
 */
module Format {
  import opened Wrappers
  import opened Js

  /** A character `\w` matches. */
  predicate IsWordChar(c: char) {
    ('a' <= c <= 'z') || ('A' <= c <= 'Z') || ('0' <= c <= '9') || c == '_'
  }

  /** `toUpperCase` on the characters `\w` can match. */
  function Upper(c: char): char {
    if 'a' <= c <= 'z' then (c as int - 32) as char else c
  }

  /** `\b\w` matches at position `i`: a word character with none just before it. */
  predicate WordStart(s: string, i: int)
    requires 0 <= i < |s|
  {
    IsWordChar(s[i]) && (i == 0 || !IsWordChar(s[i - 1]))
  }

  function ReplaceUnderscores(key: string): (r: string)
    ensures |r| == |key|
    ensures forall i :: 0 <= i < |r| ==> r[i] == (if key[i] == '_' then ' ' else key[i])
  {
    if |key| == 0 then "" else [if key[0] == '_' then ' ' else key[0]] + ReplaceUnderscores(key[1..])
  }

  /** `\b\w` replaced by its upper case: only word starts change, and none of them stays lower-case. */
  function CapitalizeWords(s: string): (r: string)
    ensures |r| == |s|
    ensures forall i :: 0 <= i < |s| && !WordStart(s, i) ==> r[i] == s[i]
    ensures forall i :: 0 <= i < |s| ==> Upper(r[i]) == Upper(s[i])
    ensures forall i :: 0 <= i < |s| && WordStart(s, i) ==> !('a' <= r[i] <= 'z')
  {
    seq(|s|, i requires 0 <= i < |s| => if WordStart(s, i) then Upper(s[i]) else s[i])
  }

  /** `formatTitle(key)`: underscores become spaces, then every word starts with a capital. */
  function FormatTitle(key: string): (r: string)
    ensures |r| == |key|
    ensures forall i :: 0 <= i < |r| ==> r[i] != '_'
    ensures forall i :: 0 <= i < |r| ==> (key[i] == '_' <==> r[i] == ' ' && key[i] != ' ')
    ensures forall i :: 0 <= i < |r| && key[i] != '_' ==> Upper(r[i]) == Upper(key[i])
    ensures forall i :: 0 <= i < |r| && WordStart(r, i) ==> !('a' <= r[i] <= 'z')
  {
    var spaced := ReplaceUnderscores(key);
    var r := CapitalizeWords(spaced);
    assert forall i :: 0 <= i < |r| ==> (IsWordChar(r[i]) <==> IsWordChar(spaced[i]));
    assert forall i :: 0 <= i < |r| ==> (WordStart(r, i) <==> WordStart(spaced, i));
    r
  }

  /** How the home feed shows one entry of its data object. */
  datatype SectionView = SectionView(title: string, section: string)

  /** The keys the home feed never shows as a section. */
  predicate HiddenKey(key: string) {
    key == "charts" || key == "moods_and_moments" || key == "genres"
  }

  /** The section for entry `key` at position `index`: none for a hidden key. */
  function SectionFor(key: string, index: int): (r: Option<SectionView>)
    ensures r.None? <==> HiddenKey(key)
    ensures r.Some? ==> r.value.title == FormatTitle(key)
    ensures r.Some? && index != 1 ==> r.value.section == key
    ensures r.Some? && index == 1 ==>
      r.value.section == (if Includes(key, "album") then "album" else "playlist")
  {
    if HiddenKey(key) then None
    else
      Some(SectionView(FormatTitle(key),
        if index != 1 then key else if Includes(key, "album") then "album" else "playlist"))
  }

  // Decimal digits

  function DigitChar(d: nat): char
    requires d < 10
  {
    ('0' as int + d) as char
  }

  predicate IsDigit(c: char) {
    '0' <= c <= '9'
  }

  function DigitValue(c: char): nat
    requires IsDigit(c)
  {
    c as int - '0' as int
  }

  /** The decimal numeral `${n}` of a natural number. */
  function Digits(n: nat): (r: string)
    ensures |r| >= 1
    ensures forall i :: 0 <= i < |r| ==> IsDigit(r[i])
    ensures n < 10 <==> |r| == 1
  {
    if n < 10 then [DigitChar(n)] else Digits(n / 10) + [DigitChar(n % 10)]
  }

  /** The value of a non-empty string of decimal digits. */
  function ParseDigits(s: string): Option<nat> {
    if |s| == 0 || !IsDigit(s[|s| - 1]) then None
    else if |s| == 1 then Some(DigitValue(s[0]))
    else
      match ParseDigits(s[..|s| - 1])
      case None => None
      case Some(v) => Some(v * 10 + DigitValue(s[|s| - 1]))
  }

  lemma {:induction false} ParseDigitsOfDigits(n: nat)
    ensures ParseDigits(Digits(n)) == Some(n)
  {
    if n >= 10 {
      var d := Digits(n);
      assert d[..|d| - 1] == Digits(n / 10);
      ParseDigitsOfDigits(n / 10);
    }
  }

  /** `formatTime(seconds)` for a whole number of seconds: `m:ss`. */
  function FormatTime(seconds: nat): (r: string)
  {
    var mins := seconds / 60;
    var secs := seconds % 60;
    Digits(mins) + ":" + (if secs < 10 then "0" else "") + Digits(secs)
  }

  /** Reads a `m:ss` string back into seconds. */
  function ParseTime(t: string): Option<nat> {
    var k := FindIndex(t, (c: char) => c == ':');
    if k == -1 || |t| - (k + 1) != 2 then None
    else
      match (ParseDigits(t[..k]), ParseDigits(t[k + 1..]))
      case (Some(m), Some(s)) => if s < 60 then Some(m * 60 + s) else None
      case _ => None
  }

  /** The seconds part of `formatTime` always has two digits. */
  lemma FormatTimeShape(seconds: nat)
    ensures var r := FormatTime(seconds);
      var m := Digits(seconds / 60);
      && |r| == |m| + 3
      && r[..|m|] == m
      && r[|m|] == ':'
      && r[|m| + 1..] == (if seconds % 60 < 10 then "0" + Digits(seconds % 60) else Digits(seconds % 60))
  {
    var secs := seconds % 60;
    if secs >= 10 {
      assert secs / 10 < 10;
      assert |Digits(secs)| == |Digits(secs / 10)| + 1;
    }
  }

  /** `formatTime` loses nothing: reading its result back gives the seconds. */
  lemma FormatTimeRoundTrip(seconds: nat)
    ensures ParseTime(FormatTime(seconds)) == Some(seconds)
  {
    var r := FormatTime(seconds);
    var m := Digits(seconds / 60);
    var secs := seconds % 60;
    FormatTimeShape(seconds);
    var k := FindIndex(r, (c: char) => c == ':');
    assert r[|m|] == ':';
    assert forall i :: 0 <= i < |m| ==> r[i] == m[i] && r[i] != ':';
    assert k == |m|;
    ParseDigitsOfDigits(seconds / 60);
    ParseDigitsOfDigits(secs);
    var tail := r[k + 1..];
    if secs < 10 {
      assert tail == "0" + Digits(secs);
      assert tail[..1] == "0";
      assert Digits(secs) == [DigitChar(secs)];
      assert ParseDigits(tail[..1]) == Some(0);
      assert tail[..|tail| - 1] == tail[..1];
      assert ParseDigits(tail) == Some(secs);
    }
  }
}
