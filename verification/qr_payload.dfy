/** The code resolver of app/utils/api.ts: turns the text decoded from a QR
    code into a guest-code identifier. The WHATWG URL parser is an oracle:
    the model is told whether the text parsed as a URL and, if so, what its
    `code` search parameter is. */
module QrPayload {
  import opened Wrappers

  /** What `new URL(text)` and `searchParams.get('code')` produced. */
  datatype UrlParse = NotAUrl | ParsedUrl(code: Option<string>)

  /** `extractCodeFromUrl`: the `code` parameter, or null when the text is not
      a URL or has no such parameter. */
  function ExtractCodeFromUrl(parsed: UrlParse): (r: Option<string>)
    ensures r.Some? <==> parsed.ParsedUrl? && parsed.code.Some?
    ensures r.Some? ==> r == parsed.code
  {
    match parsed
    case NotAUrl => None
    case ParsedUrl(code) => code
  }

  predicate IsHexDigit(c: char) {
    '0' <= c <= '9' || 'a' <= c <= 'f' || 'A' <= c <= 'F'
  }

  /** `[0-9a-f]{n}` with the `i` flag, matched at `from`. */
  predicate HexRun(s: string, from: nat, n: nat)
    requires from + n <= |s|
    decreases n
  {
    n == 0 || (IsHexDigit(s[from]) && HexRun(s, from + 1, n - 1))
  }

  /** The RFC 4122 version digit `[1-5]`. */
  predicate IsVersionDigit(c: char) {
    '1' <= c <= '5'
  }

  /** The RFC 4122 variant digit `[89ab]`, in either case. */
  predicate IsVariantDigit(c: char) {
    c == '8' || c == '9' || c == 'a' || c == 'b' || c == 'A' || c == 'B'
  }

  /** The anchored pattern
      `^[0-9a-f]{8}-[0-9a-f]{4}-[1-5][0-9a-f]{3}-[89ab][0-9a-f]{3}-[0-9a-f]{12}$`
      with the `i` flag, read group by group as the expression is written. */
  predicate IsUuid(s: string) {
    |s| == 36 &&
    HexRun(s, 0, 8) && s[8] == '-' &&
    HexRun(s, 9, 4) && s[13] == '-' &&
    IsVersionDigit(s[14]) && HexRun(s, 15, 3) && s[18] == '-' &&
    IsVariantDigit(s[19]) && HexRun(s, 20, 3) && s[23] == '-' &&
    HexRun(s, 24, 12)
  }

  /** What the pattern demands of the character at offset `i`. */
  predicate UuidCharOk(i: nat, c: char) {
    if i == 8 || i == 13 || i == 18 || i == 23 then c == '-'
    else if i == 14 then IsVersionDigit(c)
    else if i == 19 then IsVariantDigit(c)
    else IsHexDigit(c)
  }

  lemma {:induction false} HexRunAll(s: string, from: nat, n: nat)
    requires from + n <= |s|
    ensures HexRun(s, from, n) <==> forall i :: from <= i < from + n ==> IsHexDigit(s[i])
    decreases n
  {
    if n > 0 {
      HexRunAll(s, from + 1, n - 1);
    }
  }

  /** The textual UUID form of section 3 of RFC 4122, with the version digit
      of section 4.1.3 and the variant digit of section 4.1.1: exactly 36
      characters, hyphens at offsets 8, 13, 18 and 23, offset 14 in 1-5,
      offset 19 in 8, 9, a, b, and hexadecimal digits of either case elsewhere. */
  lemma UuidByOffsets(s: string)
    ensures IsUuid(s) <==> |s| == 36 && forall i :: 0 <= i < 36 ==> UuidCharOk(i, s[i])
  {
    if |s| == 36 {
      HexRunAll(s, 0, 8);
      HexRunAll(s, 9, 4);
      HexRunAll(s, 15, 3);
      HexRunAll(s, 20, 3);
      HexRunAll(s, 24, 12);
      if forall i :: 0 <= i < 36 ==> UuidCharOk(i, s[i]) {
        assert s[8] == '-' && s[13] == '-' && s[18] == '-' && s[23] == '-';
        assert IsVersionDigit(s[14]) && IsVariantDigit(s[19]);
        assert forall i :: 0 <= i < 8 ==> IsHexDigit(s[i]) by {
          forall i | 0 <= i < 8 ensures IsHexDigit(s[i]) { assert UuidCharOk(i, s[i]); }
        }
        assert forall i :: 9 <= i < 13 ==> IsHexDigit(s[i]) by {
          forall i | 9 <= i < 13 ensures IsHexDigit(s[i]) { assert UuidCharOk(i, s[i]); }
        }
        assert forall i :: 15 <= i < 18 ==> IsHexDigit(s[i]) by {
          forall i | 15 <= i < 18 ensures IsHexDigit(s[i]) { assert UuidCharOk(i, s[i]); }
        }
        assert forall i :: 20 <= i < 23 ==> IsHexDigit(s[i]) by {
          forall i | 20 <= i < 23 ensures IsHexDigit(s[i]) { assert UuidCharOk(i, s[i]); }
        }
        assert forall i :: 24 <= i < 36 ==> IsHexDigit(s[i]) by {
          forall i | 24 <= i < 36 ensures IsHexDigit(s[i]) { assert UuidCharOk(i, s[i]); }
        }
      }
    }
  }

  /** ASCII lower-casing of one character. */
  function Lower(c: char): (d: char)
    ensures 'A' <= c <= 'Z' ==> d as int == c as int + 32
    ensures !('A' <= c <= 'Z') ==> d == c
  {
    if 'A' <= c <= 'Z' then (c as int + 32) as char else c
  }

  function LowerAll(s: string): (t: string)
    ensures |t| == |s| && forall i :: 0 <= i < |s| ==> t[i] == Lower(s[i])
  {
    seq(|s|, i requires 0 <= i < |s| => Lower(s[i]))
  }

  /** The `i` flag: the pattern does not care about letter case. */
  lemma UuidIgnoresCase(s: string)
    ensures IsUuid(s) <==> IsUuid(LowerAll(s))
  {
    var t := LowerAll(s);
    UuidByOffsets(s);
    UuidByOffsets(t);
    forall i | 0 <= i < |s| ensures UuidCharOk(i, s[i]) <==> UuidCharOk(i, t[i]) {
    }
  }

  /** `extractCodeFromQRData`: a truthy `code` URL parameter wins; otherwise
      the text itself when it is a UUID; otherwise nothing. */
  function ExtractCodeFromQRData(data: string, parsed: UrlParse): (r: Option<string>)
    ensures r.Some? ==> r.value != ""
    ensures ExtractCodeFromUrl(parsed).Some? && ExtractCodeFromUrl(parsed).value != "" ==> r == ExtractCodeFromUrl(parsed)
    ensures !(ExtractCodeFromUrl(parsed).Some? && ExtractCodeFromUrl(parsed).value != "") ==>
              (r.Some? <==> IsUuid(data)) && (r.Some? ==> r.value == data)
  {
    var fromUrl := ExtractCodeFromUrl(parsed);
    if fromUrl.Some? && fromUrl.value != "" then fromUrl
    else if IsUuid(data) then Some(data)
    else None
  }

  /** A resolved identifier is always either the URL's `code` parameter or
      the scanned text itself, and in the latter case it is a UUID. */
  lemma ResolvedCodeOrigin(data: string, parsed: UrlParse)
    requires ExtractCodeFromQRData(data, parsed).Some?
    ensures var c := ExtractCodeFromQRData(data, parsed).value;
      (parsed.ParsedUrl? && parsed.code == Some(c)) || (c == data && IsUuid(data))
  {
  }
}
