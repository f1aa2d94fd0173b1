/**
 * The search result page: the keyword picks the queried field, and every
 * goods record found is decorated with a "new" flag and a shortened
 * introduction.
 */
module SearchResult {
  import opened Query
  import opened Records
  import opened Text

  /** Two HORIZONTAL ELLIPSIS characters (U+2026), appended to a cut introduction. */
  const Ellipsis: string := "\U{2026}\U{2026}"

  /** The introduction length shown in the result list. */
  const IntroductionLimit: nat := 24

  /** Five days in milliseconds: a book posted more recently is marked new. */
  const FiveDaysMs: int := 432000000

  function Min(a: int, b: int): int { if a < b then a else b }

  /**
   * `introductionFormat(str, length)`: a string longer than `length` is cut
   * to its first `length` characters followed by the ellipsis; any other is
   * returned as it is.
   */
  function IntroductionFormat(str: string, length: nat): (r: string)
    ensures |r| <= length + |Ellipsis|
    ensures |r| >= Min(|str|, length) && r[..Min(|str|, length)] == str[..Min(|str|, length)]
    ensures |str| <= length ==> r == str
    ensures |str| > length ==> |r| == length + |Ellipsis| && r[length..] == Ellipsis
  {
    if |str| > length then str[..length] + Ellipsis else str
  }

  /** Formatting an already formatted introduction again changes nothing. */
  lemma IntroductionFormatIdempotent(str: string, length: nat)
    ensures IntroductionFormat(IntroductionFormat(str, length), length) == IntroductionFormat(str, length)
  {
    if |str| > length {
      var once := IntroductionFormat(str, length);
      assert once[..length] == str[..length];
    }
  }

  /** Exactly `length` characters is not too long; one more is cut. */
  lemma IntroductionFormatBoundary(str: string, length: nat)
    ensures |str| == length ==> IntroductionFormat(str, length) == str
    ensures |str| == length + 1 ==> IntroductionFormat(str, length) == str[..length] + Ellipsis
  {
  }

  /** `isNew`: posted less than five days before `now`; exactly five days old is not new. */
  predicate IsNew(now: int, postDate: int)
  {
    now - postDate < FiveDaysMs
  }

  lemma IsNewBoundary(now: int)
    ensures !IsNew(now, now - FiveDaysMs)
    ensures IsNew(now, now - FiveDaysMs + 1)
    ensures forall p, q :: p <= q && IsNew(now, p) ==> IsNew(now, q)
  {
  }

  // ---------------------------------------------------------------------------
  // `!isNaN(Number(keyword))`: the StringNumericLiteral grammar of section
  // 7.1.4.1 of ECMA-262 (ECMAScript 2023)
  // ---------------------------------------------------------------------------

  /** StrWhiteSpaceChar: ECMAScript WhiteSpace (with every Zs space) and LineTerminator. */
  predicate IsJsWhitespace(c: char)
  {
    var n := c as int;
    if n < 0xA0 then
      || (0x09 <= n <= 0x0D)  // tab, line feed, vertical tab, form feed, carriage return
      || n == 0x20
    else
      || n == 0xA0 || n == 0x1680 || (0x2000 <= n <= 0x200A)
      || n == 0x2028 || n == 0x2029 || n == 0x202F || n == 0x205F || n == 0x3000 || n == 0xFEFF
  }

  /** The number of whitespace characters `s` starts with. */
  function LeadingSpaceCount(s: string): (n: nat)
    ensures n <= |s|
    ensures forall i :: 0 <= i < n ==> IsJsWhitespace(s[i])
    ensures n < |s| ==> !IsJsWhitespace(s[n])
  {
    if s != [] && IsJsWhitespace(s[0]) then 1 + LeadingSpaceCount(s[1..]) else 0
  }

  /** The number of whitespace characters `s` ends with. */
  function TrailingSpaceCount(s: string): (n: nat)
    ensures n <= |s|
    ensures forall i :: |s| - n <= i < |s| ==> IsJsWhitespace(s[i])
    ensures n < |s| ==> !IsJsWhitespace(s[|s| - n - 1])
  {
    if s != [] && IsJsWhitespace(s[|s| - 1]) then 1 + TrailingSpaceCount(s[..|s| - 1]) else 0
  }

  /** `s` without its leading whitespace. */
  function TrimStart(s: string): (r: string)
    ensures |r| <= |s| && r == s[|s| - |r|..]
    ensures forall i :: 0 <= i < |s| - |r| ==> IsJsWhitespace(s[i])
    ensures r != [] ==> !IsJsWhitespace(r[0])
  {
    s[LeadingSpaceCount(s)..]
  }

  /** `s` without its trailing whitespace. */
  function TrimEnd(s: string): (r: string)
    ensures |r| <= |s| && r == s[..|r|]
    ensures forall i :: |r| <= i < |s| ==> IsJsWhitespace(s[i])
    ensures r != [] ==> !IsJsWhitespace(r[|r| - 1])
  {
    s[..|s| - TrailingSpaceCount(s)]
  }

  predicate IsSign(c: char)
  {
    c == '+' || c == '-'
  }

  /** Digits, optionally a '.' and more digits, with at least one digit in all. */
  predicate IsUnsignedDecimal(s: string)
  {
    var k := IndexOf(s, '.');
    AllDigits(s[..k]) && (k < |s| ==> AllDigits(s[k + 1..])) && (k > 0 || |s| > k + 1)
  }

  /** SignedInteger: an optional sign and at least one digit. */
  predicate IsSignedInteger(s: string)
  {
    if s != [] && IsSign(s[0]) then s[1..] != [] && AllDigits(s[1..]) else s != [] && AllDigits(s)
  }

  const Infinity: string := "Infinity"

  /** StrUnsignedDecimalLiteral: `Infinity`, or a mantissa with an optional `e`/`E` exponent. */
  predicate IsUnsignedDecimalLiteral(s: string)
  {
    || s == Infinity
    || (var k := IndexOfAny(s, {'e', 'E'});
        IsUnsignedDecimal(s[..k]) && (k < |s| ==> IsSignedInteger(s[k + 1..])))
  }

  /** StrDecimalLiteral: an unsigned decimal literal with an optional sign. */
  predicate IsDecimalLiteral(t: string)
  {
    if t != [] && IsSign(t[0]) then IsUnsignedDecimalLiteral(t[1..]) else IsUnsignedDecimalLiteral(t)
  }

  predicate IsHexDigit(c: char)
  {
    IsDigit(c) || 'a' <= c <= 'f' || 'A' <= c <= 'F'
  }

  /** NonDecimalIntegerLiteral: `0x`, `0o` or `0b` (either case) and at least one digit of that base, unsigned. */
  predicate IsNonDecimalInteger(t: string)
  {
    && |t| >= 3 && t[0] == '0'
    && (var ds := t[2..];
        || ((t[1] == 'x' || t[1] == 'X') && forall i :: 0 <= i < |ds| ==> IsHexDigit(ds[i]))
        || ((t[1] == 'o' || t[1] == 'O') && forall i :: 0 <= i < |ds| ==> '0' <= ds[i] <= '7')
        || ((t[1] == 'b' || t[1] == 'B') && forall i :: 0 <= i < |ds| ==> ds[i] == '0' || ds[i] == '1'))
  }

  /**
   * `!isNaN(Number(keyword))`: the keyword without surrounding whitespace is
   * empty (`Number('')` is 0) or a StringNumericLiteral; every other string
   * converts to NaN.
   */
  predicate IsNumericKeyword(keyword: string)
  {
    var t := TrimEnd(TrimStart(keyword));
    t == [] || IsDecimalLiteral(t) || IsNonDecimalInteger(t)
  }

  /** The characters a StringNumericLiteral is written with. */
  predicate IsNumberChar(c: char)
  {
    || IsHexDigit(c) || IsSign(c) || c == '.'
    || c == 'x' || c == 'X' || c == 'o' || c == 'O'
    || c == 'I' || c == 'n' || c == 'i' || c == 't' || c == 'y'
  }

  predicate NumberChars(s: string)
  {
    forall i :: 0 <= i < |s| ==> IsNumberChar(s[i])
  }

  lemma NumberCharsJoin(a: string, b: string)
    requires NumberChars(a) && NumberChars(b)
    ensures NumberChars(a + b)
  {
    assert forall i :: 0 <= i < |a + b| ==> (a + b)[i] == if i < |a| then a[i] else b[i - |a|];
  }

  lemma SignedChars(s: string)
    requires s != [] && IsSign(s[0]) && NumberChars(s[1..])
    ensures NumberChars(s)
  {
    assert s == [s[0]] + s[1..];
    NumberCharsJoin([s[0]], s[1..]);
  }

  lemma UnsignedDecimalChars(s: string)
    requires IsUnsignedDecimal(s)
    ensures NumberChars(s)
  {
    var k := IndexOf(s, '.');
    assert forall i :: 0 <= i < k ==> s[..k][i] == s[i];
    assert forall i :: k < i < |s| ==> s[k + 1..][i - k - 1] == s[i];
  }

  lemma SignedIntegerChars(s: string)
    requires IsSignedInteger(s)
    ensures NumberChars(s)
  {
    if s != [] && IsSign(s[0]) {
      SignedChars(s);
    }
  }

  lemma InfinityChars()
    ensures NumberChars(Infinity)
  {
  }

  lemma UnsignedDecimalLiteralChars(s: string)
    requires IsUnsignedDecimalLiteral(s)
    ensures NumberChars(s)
  {
    if s == Infinity {
      InfinityChars();
    } else {
      var k := IndexOfAny(s, {'e', 'E'});
      UnsignedDecimalChars(s[..k]);
      if k < |s| {
        SignedIntegerChars(s[k + 1..]);
        assert s[k..] == [s[k]] + s[k + 1..];
        NumberCharsJoin([s[k]], s[k + 1..]);
        NumberCharsJoin(s[..k], s[k..]);
        assert s == s[..k] + s[k..];
      } else {
        assert s[..k] == s;
      }
    }
  }

  lemma DecimalLiteralChars(t: string)
    requires IsDecimalLiteral(t)
    ensures NumberChars(t)
  {
    if t != [] && IsSign(t[0]) {
      UnsignedDecimalLiteralChars(t[1..]);
      SignedChars(t);
    } else {
      UnsignedDecimalLiteralChars(t);
    }
  }

  lemma NonDecimalIntegerChars(t: string)
    requires IsNonDecimalInteger(t)
    ensures NumberChars(t)
  {
    assert NumberChars(t[2..]);
    assert NumberChars(t[..2]);
    NumberCharsJoin(t[..2], t[2..]);
    assert t == t[..2] + t[2..];
  }

  /**
   * A keyword with a character no StringNumericLiteral has (a letter other
   * than a hexadecimal digit, a base prefix or a letter of `Infinity`, a CJK
   * character, ...) searches by name.
   */
  lemma ForeignCharNotNumeric(keyword: string, j: nat)
    requires j < |keyword| && !IsJsWhitespace(keyword[j]) && !IsNumberChar(keyword[j])
    ensures !IsNumericKeyword(keyword)
  {
    var a := TrimStart(keyword);
    var t := TrimEnd(a);
    var ja := j - (|keyword| - |a|);
    assert 0 <= ja < |a| && a[ja] == keyword[j];
    assert ja < |t| && t[ja] == keyword[j];
    if IsDecimalLiteral(t) {
      DecimalLiteralChars(t);
    }
    if IsNonDecimalInteger(t) {
      NonDecimalIntegerChars(t);
    }
  }

  /** A string with no surrounding whitespace is its own trimmed form. */
  lemma UntrimmedKeyword(keyword: string)
    requires keyword != [] && !IsJsWhitespace(keyword[0]) && !IsJsWhitespace(keyword[|keyword| - 1])
    ensures TrimEnd(TrimStart(keyword)) == keyword
  {
    assert TrimStart(keyword) == keyword;
  }

  lemma DigitsAreDecimalLiteral(keyword: string)
    requires keyword != [] && AllDigits(keyword)
    ensures IsDecimalLiteral(keyword)
  {
    assert keyword != Infinity by {
      assert Infinity[0] == 'I';
    }
    assert IndexOfAny(keyword, {'e', 'E'}) == |keyword|;
    assert IndexOf(keyword, '.') == |keyword|;
    assert keyword[..|keyword|] == keyword;
  }

  /** A keyword of digits only (an ISBN written without hyphens) searches by ISBN. */
  lemma DigitKeywordIsNumeric(keyword: string)
    requires keyword != [] && AllDigits(keyword)
    ensures IsNumericKeyword(keyword)
  {
    UntrimmedKeyword(keyword);
    DigitsAreDecimalLiteral(keyword);
  }

  /** An exponent makes a keyword numeric: `Number('1e5')` is 100000. */
  lemma ExponentIsNumeric()
    ensures IsNumericKeyword("1e5")
  {
    UntrimmedKeyword("1e5");
    ExponentLiteral();
    DecimalKeyword("1e5");
  }

  lemma ExponentLiteral()
    ensures IsDecimalLiteral("1e5")
  {
    var s := "1e5";
    assert IndexOfAny(s, {'e', 'E'}) == 1;
    assert s[..1] == "1" && s[2..] == "5";
    assert IndexOf("1", '.') == 1;
    assert IsUnsignedDecimal("1") by {
      assert "1"[..1] == "1";
    }
  }

  lemma DecimalKeyword(keyword: string)
    requires IsDecimalLiteral(TrimEnd(TrimStart(keyword)))
    ensures IsNumericKeyword(keyword)
  {
  }

  /** A base prefix makes a keyword numeric, surrounding whitespace aside: `Number(' 0x1F')` is 31. */
  lemma HexIsNumeric()
    ensures IsNumericKeyword(" 0x1F")
  {
    HexKeywordTrimmed();
    HexLiteral();
    NonDecimalKeyword(" 0x1F");
  }

  lemma HexKeywordTrimmed()
    ensures TrimEnd(TrimStart(" 0x1F")) == "0x1F"
  {
    var h := "0x1F";
    assert " 0x1F" == [' '] + h;
    LeadingWhitespaceTrimmed(' ', h);
    UntrimmedKeyword(h);
  }

  lemma LeadingWhitespaceTrimmed(c: char, s: string)
    requires IsJsWhitespace(c)
    ensures TrimStart([c] + s) == TrimStart(s)
  {
    assert ([c] + s)[1..] == s;
  }

  lemma NonDecimalKeyword(keyword: string)
    requires IsNonDecimalInteger(TrimEnd(TrimStart(keyword)))
    ensures IsNumericKeyword(keyword)
  {
  }

  lemma HexLiteral()
    ensures IsNonDecimalInteger("0x1F")
  {
    var ds := "0x1F"[2..];
    assert ds == "1F";
    assert IsHexDigit(ds[0]) && IsHexDigit(ds[1]);
  }

  /** `Infinity` with a sign is numeric: `Number('-Infinity')` is -Infinity. */
  lemma SignedInfinityIsNumeric()
    ensures IsNumericKeyword("-Infinity")
  {
    UntrimmedKeyword("-Infinity");
    SignedInfinityLiteral();
    DecimalKeyword("-Infinity");
  }

  lemma SignedInfinityLiteral()
    ensures IsDecimalLiteral("-Infinity")
  {
    assert "-Infinity"[1..] == Infinity;
  }

  // ---------------------------------------------------------------------------
  // The query and the decoration (`getGoodsList`)
  // ---------------------------------------------------------------------------

  /** The single field `getGoodsList` queries. */
  datatype GoodsQuery = ByIsbn(isbn: string) | ByName(name: string)

  function RouteKeyword(keyword: string): (q: GoodsQuery)
    ensures q.ByIsbn? <==> IsNumericKeyword(keyword)
    ensures q == ByIsbn(keyword) || q == ByName(keyword)
  {
    if IsNumericKeyword(keyword) then ByIsbn(keyword) else ByName(keyword)
  }

  predicate Matches(g: Goods, q: GoodsQuery)
  {
    match q
    case ByIsbn(isbn) => g.isbn == isbn
    case ByName(name) => g.name == name
  }

  /** A listed goods record: the record spread with a new `introduction`, plus `isNew`. */
  datatype ListedGoods = ListedGoods(goods: Goods, isNew: bool)

  /** The per-record map of both branches of `getGoodsList`. */
  function Decorated(g: Goods, now: int): (r: ListedGoods)
    ensures r.goods.(introduction := g.introduction) == g
    ensures |r.goods.introduction| <= IntroductionLimit + |Ellipsis|
    ensures r.isNew <==> now - g.postDate < FiveDaysMs
  {
    ListedGoods(g.(introduction := IntroductionFormat(g.introduction, IntroductionLimit)), IsNew(now, g.postDate))
  }

  function Decorate(goods: seq<Goods>, now: int): (r: seq<ListedGoods>)
    ensures |r| == |goods|
    ensures forall i :: 0 <= i < |r| ==> r[i] == Decorated(goods[i], now)
  {
    seq(|goods|, i requires 0 <= i < |goods| => Decorated(goods[i], now))
  }

  /** `getGoodsList`, given the `goods` collection and the current time. */
  function GetGoodsList(keyword: string, goods: seq<Goods>, now: int): seq<ListedGoods>
  {
    var q := RouteKeyword(keyword);
    Decorate(Where(goods, (g: Goods) => Matches(g, q)), now)
  }

  /**
   * A numeric keyword lists exactly the goods whose ISBN is the keyword, any
   * other keyword exactly those whose name is the keyword.
   */
  lemma KeywordRouting(keyword: string, goods: seq<Goods>, now: int)
    ensures forall x :: x in GetGoodsList(keyword, goods, now) ==>
      if IsNumericKeyword(keyword) then x.goods.isbn == keyword else x.goods.name == keyword
    ensures forall g :: g in goods && (if IsNumericKeyword(keyword) then g.isbn == keyword else g.name == keyword) ==>
      Decorated(g, now) in GetGoodsList(keyword, goods, now)
  {
    ListedGoodsMatch(keyword, goods, now);
    MatchingGoodsListed(keyword, goods, now);
  }

  lemma ListedGoodsMatch(keyword: string, goods: seq<Goods>, now: int)
    ensures forall x :: x in GetGoodsList(keyword, goods, now) ==> Matches(x.goods, RouteKeyword(keyword))
  {
    var q := RouteKeyword(keyword);
    var found := Where(goods, (g: Goods) => Matches(g, q));
    var r := GetGoodsList(keyword, goods, now);
    forall x | x in r
      ensures Matches(x.goods, q)
    {
      var i :| 0 <= i < |r| && r[i] == x;
      assert found[i] in found;
    }
  }

  lemma MatchingGoodsListed(keyword: string, goods: seq<Goods>, now: int)
    ensures forall g :: g in goods && Matches(g, RouteKeyword(keyword)) ==> Decorated(g, now) in GetGoodsList(keyword, goods, now)
  {
    var q := RouteKeyword(keyword);
    var found := Where(goods, (g: Goods) => Matches(g, q));
    var r := GetGoodsList(keyword, goods, now);
    forall g | g in goods && Matches(g, q)
      ensures Decorated(g, now) in r
    {
      var i :| 0 <= i < |found| && found[i] == g;
      assert r[i] == Decorated(g, now);
    }
  }

  /** The decoration keeps the length and order of the query result and changes only `introduction` and `isNew`. */
  lemma DecorationKeepsRecords(goods: seq<Goods>, now: int, i: nat)
    requires i < |goods|
    ensures |Decorate(goods, now)| == |goods|
    ensures Decorate(goods, now)[i].goods.(introduction := goods[i].introduction) == goods[i]
    ensures Decorate(goods, now)[i].goods.introduction == IntroductionFormat(goods[i].introduction, IntroductionLimit)
    ensures Decorate(goods, now)[i].isNew == IsNew(now, goods[i].postDate)
  {
  }

  /** `goodsList` of the page data: `''` until the query answers, then the decorated list. */
  datatype GoodsListField = Pending | Listed(items: seq<ListedGoods>)

  /** The state of the search result page. */
  class SearchResultPage {
    var keyword: string
    var goodsList: GoodsListField

    /**
     * `onLoad` followed by the answer of `getGoodsList`, given the `goods`
     * collection and the current time.
     */
    constructor OnLoad(optionsKeyword: string, goods: seq<Goods>, now: int)
      ensures keyword == optionsKeyword
      ensures goodsList == Listed(GetGoodsList(optionsKeyword, goods, now))
    {
      keyword := optionsKeyword;
      goodsList := Listed(GetGoodsList(optionsKeyword, goods, now));
    }
  }
}
