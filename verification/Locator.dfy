/** The bounded-locator value rule (internal/domain/service/assets_schema.go). */
module Locator {

  const MAX_LOCATOR_BYTES := 2048

  /** ECMAScript WhiteSpace plus LineTerminator: what `String.prototype.trim` strips. */
  predicate IsSpace(c: char) {
    || c as int in {0x09, 0x0A, 0x0B, 0x0C, 0x0D, 0xFEFF, 0x2028, 0x2029}
    || IsSpaceSeparator(c as int)
  }

  /** Unicode general category Zs. */
  predicate IsSpaceSeparator(code: int) {
    || code in {0x20, 0xA0, 0x1680, 0x202F, 0x205F, 0x3000}
    || 0x2000 <= code <= 0x200A
  }

  predicate Blank(s: string) {
    forall i | 0 <= i < |s| :: IsSpace(s[i])
  }

  function TrimLeft(s: string): (t: string) {
    if s != "" && IsSpace(s[0]) then TrimLeft(s[1..]) else s
  }

  function TrimRight(s: string): (t: string) {
    if s != "" && IsSpace(s[|s| - 1]) then TrimRight(s[..|s| - 1]) else s
  }

  function TrimECMAScript(s: string): string {
    TrimRight(TrimLeft(s))
  }

  /** The length of one code point in UTF-8. */
  function Utf8Width(c: char): nat {
    var code := c as int;
    if code < 0x80 then 1 else if code < 0x800 then 2 else if code < 0x1_0000 then 3 else 4
  }

  function Utf8Length(s: string): nat {
    if s == "" then 0 else Utf8Width(s[0]) + Utf8Length(s[1..])
  }

  /** The limit counts bytes: a plain ASCII value has one for each character, any other more, none above four. */
  lemma {:induction false} Utf8LengthBounds(s: string)
    ensures |s| <= Utf8Length(s) <= 4 * |s|
    ensures Utf8Length(s) == |s| <==> forall i | 0 <= i < |s| :: s[i] as int < 0x80
  {
    if s != "" {
      Utf8LengthBounds(s[1..]);
      assert forall i | 1 <= i < |s| :: s[i] == s[1..][i - 1];
    }
  }

  function LowerAscii(c: char): char {
    if 'A' <= c <= 'Z' then (c as int + 32) as char else c
  }

  predicate HasDataScheme(s: string) {
    && |s| >= 5
    && LowerAscii(s[0]) == 'd' && LowerAscii(s[1]) == 'a' && LowerAscii(s[2]) == 't' && LowerAscii(s[3]) == 'a'
    && s[4] == ':'
  }

  /** The scheme is recognised however it is capitalised, and nothing else is. */
  lemma SchemeInAnyCase(s: string)
    ensures HasDataScheme(s) <==>
              |s| >= 5 && s[0] in "dD" && s[1] in "aA" && s[2] in "tT" && s[3] in "aA" && s[4] == ':'
  {
    forall c: char ensures LowerAscii(c) == 'd' <==> c in "dD" {}
    forall c: char ensures LowerAscii(c) == 'a' <==> c in "aA" {}
    forall c: char ensures LowerAscii(c) == 't' <==> c in "tT" {}
  }

  /** `validateLocator`: the size bound is on the value as sent, the other two checks on the trimmed value. */
  predicate ValidLocator(v: string) {
    && Utf8Length(v) <= MAX_LOCATOR_BYTES
    && TrimECMAScript(v) != ""
    && !HasDataScheme(TrimECMAScript(v))
  }

  /** Trimming on the left removes exactly one blank prefix. */
  lemma {:induction false} TrimLeftSplits(s: string) returns (pad: string)
    ensures s == pad + TrimLeft(s) && Blank(pad)
    ensures TrimLeft(s) != "" ==> !IsSpace(TrimLeft(s)[0])
  {
    if s != "" && IsSpace(s[0]) {
      var rest := TrimLeftSplits(s[1..]);
      pad := [s[0]] + rest;
      assert s == [s[0]] + s[1..];
    } else {
      pad := "";
    }
  }

  /** The first non-blank position decides everything: where it is, and what starts there. */
  ghost predicate StartsAt(v: string, i: nat) {
    i < |v| && Blank(v[..i]) && !IsSpace(v[i])
  }

  lemma TrimStartsAt(v: string, i: nat)
    requires StartsAt(v, i)
    ensures TrimLeft(v) == v[i..]
    decreases i
  {
    if i > 0 {
      assert IsSpace(v[..i][0]);
      assert v[1..][..i - 1] == v[..i][1..];
      assert v[1..][i - 1..] == v[i..];
      TrimStartsAt(v[1..], i - 1);
    }
  }

  /** Trimming on the right never reaches past a character that is not blank. */
  lemma {:induction false} TrimRightKeeps(s: string, k: nat)
    requires k < |s| && !IsSpace(s[k])
    ensures k < |TrimRight(s)| && TrimRight(s) <= s
  {
    if IsSpace(s[|s| - 1]) {
      TrimRightKeeps(s[..|s| - 1], k);
    }
  }

  lemma TrimRightKeepsScheme(s: string)
    requires s != "" && !IsSpace(s[0])
    ensures TrimRight(s) != ""
    ensures HasDataScheme(TrimRight(s)) <==> HasDataScheme(s)
  {
    TrimRightKeeps(s, 0);
    if HasDataScheme(s) {
      TrimRightKeeps(s, 4);
    }
  }

  /**
   * What the rule accepts, without mentioning trimming: a value within the byte limit that has a
   * non-blank character and whose first non-blank position does not begin a `data:` scheme.
   */
  lemma ValidLocatorMeaning(v: string)
    ensures ValidLocator(v) <==>
              && Utf8Length(v) <= 2048
              && exists i: nat :: StartsAt(v, i) && !HasDataScheme(v[i..])
  {
    var pad := TrimLeftSplits(v);
    var t := TrimLeft(v);
    if t == "" {
      assert Blank(v);
    } else {
      var i := |pad|;
      assert v[..i] == pad && v[i..] == t && v[i] == t[0];
      assert StartsAt(v, i);
      TrimRightKeepsScheme(t);
      forall j: nat | StartsAt(v, j) ensures v[j..] == t {
        TrimStartsAt(v, j);
      }
    }
  }

  /** No blank padding and no capitalisation lets an inline payload through. */
  lemma PaddedPayloadIsRefused(pad: string, v: string)
    requires Blank(pad) && HasDataScheme(v)
    ensures !ValidLocator(pad + v)
  {
    var i := |pad|;
    var s := pad + v;
    assert s[..i] == pad && s[i..] == v && s[i] == v[0];
    assert LowerAscii(v[0]) == 'd';
    TrimStartsAt(s, i);
    TrimRightKeepsScheme(v);
  }
}
