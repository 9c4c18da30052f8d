/**
 * The pieces of the PHP runtime that the module's behaviour depends on:
 * values as `json_decode($s, true)` produces them, reading nested array
 * keys, `empty()`, `strpos`, `strip_tags` (simplified) and `bin2hex`.
 */
module Php {
  import opened Common

  /**
   * A PHP value read from decoded JSON. JSON objects and lists both become
   * PHP arrays; objects are kept as string-keyed dictionaries, lists as
   * sequences.
   */
  datatype Value =
    | VNull
    | VBool(b: bool)
    | VInt(i: int)
    | VFloat(f: real)
    | VString(s: string)
    | VList(items: seq<Value>)
    | VDict(entries: map<string, Value>)

  /**
   * `$v[$key]` for a non-numeric string key: the entry of a dictionary, and
   * null (PHP warns and yields null) for a missing key or for a value that
   * is not an array. A list has only integer keys, so a non-numeric key is
   * never in it.
   */
  function Index(v: Value, key: string): Value {
    match v
    case VDict(m) => if key in m then m[key] else VNull
    case _ => VNull
  }

  /**
   * `$v[$k0][$k1]...` along a path of non-numeric keys. Once a read meets
   * something that is not an array, the rest of the path reads null.
   */
  function At(v: Value, path: seq<string>): (r: Value)
    ensures path == [] ==> r == v
    ensures path != [] && !v.VDict? ==> r == VNull
    decreases |path|
  {
    if path == [] then v else At(Index(v, path[0]), path[1..])
  }

  /** Reading along `p + q` is reading along `p`, then along `q` from there. */
  lemma {:induction false} AtAppend(v: Value, p: seq<string>, q: seq<string>)
    ensures At(v, p + q) == At(At(v, p), q)
    decreases |p|
  {
    if p == [] {
      assert p + q == q;
    } else {
      assert (p + q)[0] == p[0] && (p + q)[1..] == p[1..] + q;
      AtAppend(Index(v, p[0]), p[1..], q);
    }
  }

  /** PHP's `empty()`: null, false, 0, 0.0, "", "0" and the empty array. */
  predicate IsEmpty(v: Value)
    // every string of two or more characters is non-empty, "00" and "0.0" included
    ensures v.VString? && |v.s| >= 2 ==> !IsEmpty(v)
    // of the one-character strings only "0" is empty
    ensures v.VString? && |v.s| == 1 ==> (IsEmpty(v) <==> v.s[0] == '0')
  {
    match v
    case VNull => true
    case VBool(b) => !b
    case VInt(i) => i == 0
    case VFloat(f) => f == 0.0
    case VString(s) => s == "" || s == "0"
    case VList(items) => items == []
    case VDict(entries) => entries == map[]
  }

  /** `needle` occurs in `haystack` starting at offset `i`. */
  predicate OccursAt(haystack: string, needle: string, i: int) {
    0 <= i && i + |needle| <= |haystack| && haystack[i..i + |needle|] == needle
  }

  /** `strpos($haystack, $needle)`: the first offset of `needle`, or false (None). */
  function StrPos(haystack: string, needle: string): (r: Option<nat>)
    ensures r.Some? ==> OccursAt(haystack, needle, r.value)
    ensures r.Some? ==> forall i :: 0 <= i < r.value ==> !OccursAt(haystack, needle, i)
    ensures r.None? ==> forall i :: !OccursAt(haystack, needle, i)
    decreases |haystack|
  {
    if |haystack| < |needle| then None
    else if haystack[..|needle|] == needle then Some(0)
    else
      assert !OccursAt(haystack, needle, 0) by { assert haystack[0..|needle|] == haystack[..|needle|]; }
      var rest := StrPos(haystack[1..], needle);
      ShiftOccurrence(haystack, needle);
      match rest
      case None => None
      case Some(k) => Some(k + 1)
  }

  /** An occurrence at `i` past the first character is one at `i - 1` in the tail. */
  lemma ShiftOccurrence(haystack: string, needle: string)
    requires haystack != []
    ensures forall i :: 1 <= i ==> (OccursAt(haystack, needle, i) <==> OccursAt(haystack[1..], needle, i - 1))
  {
    forall i | 1 <= i
      ensures OccursAt(haystack, needle, i) <==> OccursAt(haystack[1..], needle, i - 1)
    {
      if i + |needle| <= |haystack| {
        assert haystack[1..][i - 1..i - 1 + |needle|] == haystack[i..i + |needle|];
      }
    }
  }

  /** `strpos($haystack, $needle) !== false` */
  predicate Contains(haystack: string, needle: string) {
    StrPos(haystack, needle).Some?
  }

  /**
   * A simplified `strip_tags`: every span from `<` up to and including the
   * next `>` is dropped, and an unclosed `<` drops the rest of the text.
   */
  function StripTags(s: string): (r: string)
    ensures |r| <= |s|
    ensures forall i :: 0 <= i < |r| ==> r[i] != '<'
    decreases |s|
  {
    if s == [] then []
    else if s[0] == '<' then StripTags(AfterTag(s[1..]))
    else [s[0]] + StripTags(s[1..])
  }

  /** The text after the first `>`, or nothing when the tag is never closed. */
  function AfterTag(s: string): (r: string)
    ensures |r| <= |s| && r == s[|s| - |r|..]
    decreases |s|
  {
    if s == [] then []
    else if s[0] == '>' then s[1..]
    else AfterTag(s[1..])
  }

  /** Text without any `<` has no tags, and `strip_tags` leaves it alone. */
  lemma {:induction false} StripTagsKeepsPlainText(s: string)
    requires forall i :: 0 <= i < |s| ==> s[i] != '<'
    ensures StripTags(s) == s
    decreases |s|
  {
    if s != [] {
      assert s[0] != '<';
      StripTagsKeepsPlainText(s[1..]);
    }
  }

  /** Text before the first `<` is kept as it is. */
  lemma {:induction false} StripTagsKeepsPlainPrefix(p: string, q: string)
    requires forall i :: 0 <= i < |p| ==> p[i] != '<'
    ensures StripTags(p + q) == p + StripTags(q)
    decreases |p|
  {
    if p == [] {
      assert p + q == q;
    } else {
      assert (p + q)[0] == p[0] && (p + q)[1..] == p[1..] + q;
      StripTagsKeepsPlainPrefix(p[1..], q);
      calc {
        StripTags(p + q);
        [p[0]] + StripTags(p[1..] + q);
        [p[0]] + (p[1..] + StripTags(q));
        { assert [p[0]] + p[1..] == p; }
        p + StripTags(q);
      }
    }
  }

  /** A tag body without `>` is skipped up to and including its closing `>`. */
  lemma {:induction false} AfterTagSkipsTag(t: string, q: string)
    requires forall i :: 0 <= i < |t| ==> t[i] != '>'
    ensures AfterTag(t + ">" + q) == q
    decreases |t|
  {
    if t == [] {
      assert t + ">" + q == ">" + q;
    } else {
      assert (t + ">" + q)[0] == t[0];
      assert (t + ">" + q)[1..] == t[1..] + ">" + q;
      AfterTagSkipsTag(t[1..], q);
    }
  }

  /**
   * One tag is removed and the text on both sides of it is kept: the text
   * before it unchanged, the text after it stripped in turn.
   */
  lemma {:induction false} StripTagsDropsTag(p: string, t: string, q: string)
    requires forall i :: 0 <= i < |p| ==> p[i] != '<'
    requires forall i :: 0 <= i < |t| ==> t[i] != '>'
    ensures StripTags(p + "<" + t + ">" + q) == p + StripTags(q)
  {
    var rest := t + ">" + q;
    var tag := ['<'] + rest;
    assert p + "<" + t + ">" + q == p + tag;
    StripTagsKeepsPlainPrefix(p, tag);
    assert tag[1..] == rest;
    assert StripTags(tag) == StripTags(AfterTag(rest));
    AfterTagSkipsTag(t, q);
  }

  /** Stripping twice is stripping once. */
  lemma StripTagsIdempotent(s: string)
    ensures StripTags(StripTags(s)) == StripTags(s)
  {
    StripTagsKeepsPlainText(StripTags(s));
  }

  /** A byte, as `random_bytes` returns them. */
  type Byte = b: int | 0 <= b < 256

  /** The lower-case hexadecimal digit of `n`. */
  function HexDigit(n: int): char
    requires 0 <= n < 16
  {
    if n < 10 then ('0' as int + n) as char else ('a' as int + n - 10) as char
  }

  predicate IsLowerHex(c: char) {
    '0' <= c <= '9' || 'a' <= c <= 'f'
  }

  /** `bin2hex`: two lower-case hexadecimal digits per byte, high nibble first. */
  function Bin2Hex(bytes: seq<Byte>): (r: string)
    ensures |r| == 2 * |bytes|
    ensures forall i :: 0 <= i < |r| ==> IsLowerHex(r[i])
  {
    if bytes == [] then ""
    else [HexDigit(bytes[0] / 16), HexDigit(bytes[0] % 16)] + Bin2Hex(bytes[1..])
  }

  /** The value of a lower-case hexadecimal digit. */
  function HexValue(c: char): (r: Option<int>)
    ensures r.Some? ==> 0 <= r.value < 16
    ensures r.Some? <==> IsLowerHex(c)
  {
    if '0' <= c <= '9' then Some(c as int - '0' as int)
    else if 'a' <= c <= 'f' then Some(c as int - 'a' as int + 10)
    else None
  }

  /** Reads back a lower-case hexadecimal string, the inverse of Bin2Hex. */
  function HexDecode(s: string): (r: Option<seq<Byte>>)
    decreases |s|
  {
    if s == [] then Some([])
    else if |s| == 1 then None
    else
      match (HexValue(s[0]), HexValue(s[1]), HexDecode(s[2..]))
      case (Some(hi), Some(lo), Some(rest)) => Some([hi * 16 + lo] + rest)
      case _ => None
  }

  /** Decoding what `bin2hex` produced gives back the bytes. */
  lemma {:induction false} HexDecodeInvertsBin2Hex(bytes: seq<Byte>)
    ensures HexDecode(Bin2Hex(bytes)) == Some(bytes)
  {
    if bytes != [] {
      var s := Bin2Hex(bytes);
      assert s[0] == HexDigit(bytes[0] / 16) && s[1] == HexDigit(bytes[0] % 16);
      assert s[2..] == Bin2Hex(bytes[1..]);
      HexDecodeInvertsBin2Hex(bytes[1..]);
      assert [bytes[0]] + bytes[1..] == bytes;
    }
  }
}
