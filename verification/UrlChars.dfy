/** Character classes of the URL parser in strict mode
    (nghttp2_test/client/url-parser/url_parser.c:174-201).
    A byte is modelled as a `char`. Every code above 126 lies outside all the classes,
    exactly as the bytes 128..255 do in the source. */
module UrlChars {

  datatype CharClass =
    | Letters | Digits | UserinfoChars | HostChars | V6Chars | ZoneChars
    | ServerChars | PathChars | QueryChars | FragmentChars

  predicate IsAlpha(c: char) {
    'A' <= c <= 'Z' || 'a' <= c <= 'z'
  }

  predicate IsNum(c: char) {
    '0' <= c <= '9'
  }

  predicate IsHex(c: char) {
    IsNum(c) || 'A' <= c <= 'F' || 'a' <= c <= 'f'
  }

  predicate IsMark(c: char) {
    c == '-' || c == '_' || c == '.' || c == '!' || c == '~' || c == '*' || c == '\'' || c == '(' || c == ')'
  }

  predicate IsUserinfoChar(c: char) {
    IsAlpha(c) || IsNum(c) || IsMark(c) || c == '%' || c == ';' || c == ':' || c == '&' || c == '=' || c == '+'
    || c == '$' || c == ','
  }

  predicate IsHostChar(c: char) {
    IsAlpha(c) || IsNum(c) || c == '.' || c == '-'
  }

  predicate IsZoneChar(c: char) {
    IsAlpha(c) || IsNum(c) || c == '%' || c == '.' || c == '-' || c == '_' || c == '~'
  }

  /** The set bits of the `normal_url_char` table. */
  predicate IsUrlChar(c: char) {
    '!' <= c <= '~' && c != '#' && c != '?'
  }

  predicate In(k: CharClass, c: char) {
    match k
    case Letters => IsAlpha(c)
    case Digits => IsNum(c)
    case UserinfoChars => IsUserinfoChar(c)
    case HostChars => IsHostChar(c)
    case V6Chars => IsHex(c) || c == ':' || c == '.'
    case ZoneChars => IsZoneChar(c)
    case ServerChars => IsUserinfoChar(c) || c == '[' || c == ']' || c == '@'
    case PathChars => IsUrlChar(c)
    case QueryChars => IsUrlChar(c) || c == '?'
    case FragmentChars => IsUrlChar(c) || c == '?' || c == '#'
  }

  /** The classes by the ASCII codes of their characters. */
  lemma ClassCodes(c: char)
    ensures var n := c as int;
            var letter, digit := 65 <= n <= 90 || 97 <= n <= 122, 48 <= n <= 57;
            && (In(Letters, c) <==> letter) && (In(Digits, c) <==> digit)
            && (In(HostChars, c) <==> letter || digit || 45 <= n <= 46)
            && (In(V6Chars, c) <==> n == 46 || 48 <= n <= 58 || 65 <= n <= 70 || 97 <= n <= 102)
            && (In(ZoneChars, c) <==> letter || digit || n == 37 || 45 <= n <= 46 || n == 95 || n == 126)
            && (In(UserinfoChars, c) <==>
                letter || digit || n == 33 || 36 <= n <= 46 || 58 <= n <= 59 || n == 61 || n == 95 || n == 126)
            && (In(ServerChars, c) <==> In(UserinfoChars, c) || n == 64 || n == 91 || n == 93)
            && (In(PathChars, c) <==> 33 <= n <= 126 && n != 35 && n != 63)
            && (In(QueryChars, c) <==> 33 <= n <= 126 && n != 35)
            && (In(FragmentChars, c) <==> 33 <= n <= 126)
  {
  }

  /** Every character of `s` is in class `k`. */
  predicate All(k: CharClass, s: string) {
    forall i :: 0 <= i < |s| ==> In(k, s[i])
  }

  lemma AllSnoc(k: CharClass, s: string, ch: char)
    requires All(k, s) && In(k, ch)
    ensures All(k, s + [ch])
  {
  }

  lemma AllConcat(k: CharClass, a: string, b: string)
    ensures All(k, a + b) <==> All(k, a) && All(k, b)
  {
    assert All(k, a + b) ==> All(k, a) by {
      assert forall i :: 0 <= i < |a| ==> a[i] == (a + b)[i];
    }
    assert All(k, a + b) ==> All(k, b) by {
      assert forall i :: 0 <= i < |b| ==> b[i] == (a + b)[|a| + i];
    }
  }

  function Last(s: string): char
    requires s != ""
  {
    s[|s| - 1]
  }

  function Init(s: string): (r: string)
    requires s != ""
    ensures r + [Last(s)] == s
  {
    s[..|s| - 1]
  }

  /** No two consecutive `@`, the one condition on the authority that the first pass
      remembers in its state. */
  predicate NoDoubleAt(s: string) {
    forall i :: 0 <= i < |s| - 1 ==> !(s[i] == '@' && s[i + 1] == '@')
  }

  function Hashes(n: nat): (r: string)
    ensures |r| == n
  {
    seq(n, _ => '#')
  }
}
