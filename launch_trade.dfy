/**
 * The page on which a buyer requests a trade for a book: the booking
 * decision, the placeholder-image removal, the trade record it writes, the
 * date format and the form setters.
 */
module LaunchTrade {
  import opened Wrappers
  import opened Query
  import opened Records
  import opened Text

  /** The image URL the upload page stores when no photo was taken. */
  const PlaceholderImage: string := "cloud://qqk-4gjankm535f1a524.7171-qqk-4gjankm535f1a524-1306811448/undefined.jpg"

  // ---------------------------------------------------------------------------
  // `formatDate`: `${year}/${month + 1}/${day}`
  // ---------------------------------------------------------------------------

  function DigitChar(d: nat): (c: char)
    requires d < 10
    ensures IsDigit(c) && c as int - '0' as int == d
  {
    ('0' as int + d) as char
  }

  /** The decimal digits of `n` as a template literal prints them: no sign, no padding. */
  function NatToDecimal(n: nat): (s: string)
    ensures s != [] && AllDigits(s)
    ensures |s| == 1 <==> n < 10
    ensures s[0] == '0' <==> n == 0
    decreases n
  {
    if n < 10 then [DigitChar(n)] else NatToDecimal(n / 10) + [DigitChar(n % 10)]
  }

  /** The number a string of decimal digits denotes. */
  function DecimalValue(s: string): nat
    requires AllDigits(s)
  {
    if s == [] then 0 else DecimalValue(s[..|s| - 1]) * 10 + (s[|s| - 1] as int - '0' as int)
  }

  lemma {:induction false} DecimalRoundTrip(n: nat)
    ensures DecimalValue(NatToDecimal(n)) == n
    decreases n
  {
    if n >= 10 {
      DecimalRoundTrip(n / 10);
      var s := NatToDecimal(n);
      assert s[..|s| - 1] == NatToDecimal(n / 10);
    }
  }

  /** `formatDate`, given the components of the chosen date (month counted from 0). */
  function FormatDate(year: nat, monthIndex: nat, day: nat): string
  {
    NatToDecimal(year) + "/" + NatToDecimal(monthIndex + 1) + "/" + NatToDecimal(day)
  }

  datatype DateParts = DateParts(year: nat, month: nat, day: nat)

  /** Reads back a `year/month/day` string of three non-empty digit fields. */
  function ParseDate(s: string): Option<DateParts>
  {
    var i := IndexOf(s, '/');
    if i == |s| then None
    else
      var rest := s[i + 1..];
      var j := IndexOf(rest, '/');
      if j == |rest| then None
      else
        var y, m, d := s[..i], rest[..j], rest[j + 1..];
        if y != [] && m != [] && d != [] && AllDigits(y) && AllDigits(m) && AllDigits(d)
        then Some(DateParts(DecimalValue(y), DecimalValue(m), DecimalValue(d)))
        else None
  }

  lemma IndexOfAfterDigits(digits: string, rest: string)
    requires AllDigits(digits)
    ensures IndexOf(digits + "/" + rest, '/') == |digits|
  {
    var s := digits + "/" + rest;
    assert s[|digits|] == '/';
    assert forall j :: 0 <= j < |digits| ==> s[j] == digits[j];
  }

  /** Three digit fields joined by '/' read back as their values. */
  lemma ParseFields(y: string, m: string, d: string)
    requires y != [] && m != [] && d != [] && AllDigits(y) && AllDigits(m) && AllDigits(d)
    ensures ParseDate(y + "/" + (m + "/" + d)) == Some(DateParts(DecimalValue(y), DecimalValue(m), DecimalValue(d)))
  {
    var s := y + "/" + (m + "/" + d);
    var rest := m + "/" + d;
    IndexOfAfterDigits(y, rest);
    IndexOfAfterDigits(m, d);
    assert s[..|y|] == y;
    assert s[|y| + 1..] == rest;
    assert rest[..|m|] == m && rest[|m| + 1..] == d;
  }

  /**
   * The formatted date reads back as year, month (counted from 1) and day:
   * three '/'-separated decimal fields.
   */
  lemma FormatDateRoundTrip(year: nat, monthIndex: nat, day: nat)
    ensures ParseDate(FormatDate(year, monthIndex, day)) == Some(DateParts(year, monthIndex + 1, day))
  {
    var y, m, d := NatToDecimal(year), NatToDecimal(monthIndex + 1), NatToDecimal(day);
    assert FormatDate(year, monthIndex, day) == y + "/" + (m + "/" + d);
    ParseFields(y, m, d);
    DecimalRoundTrip(year);
    DecimalRoundTrip(monthIndex + 1);
    DecimalRoundTrip(day);
  }

  /** No zero padding: a month or day below 10 is printed as a single digit. */
  lemma FormatDateUnpadded(year: nat, monthIndex: nat, day: nat)
    requires monthIndex < 9 && 1 <= day < 10
    ensures |FormatDate(year, monthIndex, day)| == |NatToDecimal(year)| + 4
  {
  }

  // ---------------------------------------------------------------------------
  // The placeholder filter of `addTradeRecord`: `forEach` + `splice(idx, 1)`
  // ---------------------------------------------------------------------------

  /**
   * What the loop leaves: a placeholder is removed, and the element that
   * slides into its index is never visited, so it stays whatever it is.
   */
  function ForEachSplice(s: seq<string>): seq<string>
  {
    if s == [] then []
    else if s[0] == PlaceholderImage then (if |s| == 1 then [] else [s[1]] + ForEachSplice(s[2..]))
    else [s[0]] + ForEachSplice(s[1..])
  }

  /** A placeholder goes and the element after it is kept unvisited. */
  lemma SpliceSkipsNext(x: string, t: seq<string>)
    ensures ForEachSplice([PlaceholderImage, x] + t) == [x] + ForEachSplice(t)
  {
    assert ([PlaceholderImage, x] + t)[2..] == t;
  }

  /** Any other element is kept and the next one is visited. */
  lemma SpliceKeeps(x: string, t: seq<string>)
    requires x != PlaceholderImage
    ensures ForEachSplice([x] + t) == [x] + ForEachSplice(t)
  {
    assert ([x] + t)[1..] == t;
  }

  /** Visiting a placeholder that has a successor: it is removed and the successor skipped. */
  lemma DropStep(list: seq<string>, idx: nat)
    requires idx + 1 < |list| && list[idx] == PlaceholderImage
    ensures var next := list[..idx] + list[idx + 1..];
      next[..idx + 1] + ForEachSplice(next[idx + 1..]) == list[..idx] + ForEachSplice(list[idx..])
  {
    var next := list[..idx] + list[idx + 1..];
    assert list[idx..] == [PlaceholderImage, list[idx + 1]] + list[idx + 2..];
    SpliceSkipsNext(list[idx + 1], list[idx + 2..]);
    assert next[..idx + 1] == list[..idx] + [list[idx + 1]];
    assert next[idx + 1..] == list[idx + 2..];
  }

  /** Visiting a placeholder in the last position: it is removed and the loop ends. */
  lemma DropLast(list: seq<string>, idx: nat)
    requires idx + 1 == |list| && list[idx] == PlaceholderImage
    ensures list[..idx] == list[..idx] + ForEachSplice(list[idx..])
  {
    assert list[idx..] == [PlaceholderImage];
  }

  /** Visiting any other element: it is kept. */
  lemma KeepStep(list: seq<string>, idx: nat)
    requires idx < |list| && list[idx] != PlaceholderImage
    ensures list[..idx + 1] + ForEachSplice(list[idx + 1..]) == list[..idx] + ForEachSplice(list[idx..])
  {
    assert list[idx..] == [list[idx]] + list[idx + 1..];
    SpliceKeeps(list[idx], list[idx + 1..]);
    assert list[..idx + 1] == list[..idx] + [list[idx]];
  }

  /**
   * The loop of `addTradeRecord`. `forEach` visits the indices below the
   * starting length that are still present; as the list only shrinks, those
   * are the indices below its current length. The element at a visited
   * index is removed when it is the placeholder.
   */
  method DropPlaceholders(imageList: seq<string>) returns (list: seq<string>)
    ensures list == ForEachSplice(imageList)
  {
    list := imageList;
    var idx := 0;
    while idx < |list|
      invariant 0 <= idx <= |list| + 1
      invariant idx <= |list| ==> ForEachSplice(imageList) == list[..idx] + ForEachSplice(list[idx..])
      invariant idx == |list| + 1 ==> ForEachSplice(imageList) == list
    {
      if list[idx] == PlaceholderImage {
        if idx + 1 < |list| {
          DropStep(list, idx);
        } else {
          DropLast(list, idx);
        }
        list := list[..idx] + list[idx + 1..];
      } else {
        KeepStep(list, idx);
      }
      idx := idx + 1;
    }
    if idx == |list| {
      assert list[..idx] == list && list[idx..] == [];
    }
  }

  /** The URLs that are not the placeholder, in order. */
  function RealImages(s: seq<string>): (r: seq<string>)
    ensures PlaceholderImage !in r
    ensures forall x :: x in r ==> x in s
  {
    if s == [] then [] else (if s[0] == PlaceholderImage then [] else [s[0]]) + RealImages(s[1..])
  }

  /** The number of placeholder URLs in `s`. */
  function Placeholders(s: seq<string>): nat
  {
    if s == [] then 0 else (if s[0] == PlaceholderImage then 1 else 0) + Placeholders(s[1..])
  }

  /** Every real image is kept, in its original relative order, and placeholders never multiply. */
  lemma {:induction false} ForEachSpliceKeepsRealImages(s: seq<string>)
    ensures RealImages(ForEachSplice(s)) == RealImages(s)
    ensures Placeholders(ForEachSplice(s)) <= Placeholders(s)
    ensures |ForEachSplice(s)| <= |s|
    decreases |s|
  {
    if s == [] {
    } else if s[0] == PlaceholderImage {
      if |s| > 1 {
        ForEachSpliceKeepsRealImages(s[2..]);
        var r := [s[1]] + ForEachSplice(s[2..]);
        assert r[1..] == ForEachSplice(s[2..]);
        assert s[1..][1..] == s[2..];
      }
    } else {
      ForEachSpliceKeepsRealImages(s[1..]);
      var r := [s[0]] + ForEachSplice(s[1..]);
      assert r[1..] == ForEachSplice(s[1..]);
    }
  }

  function Repeat(x: string, k: nat): (r: seq<string>)
    ensures |r| == k
  {
    if k == 0 then [] else [x] + Repeat(x, k - 1)
  }

  /** A lone placeholder before a non-placeholder (or the end) is removed. */
  lemma LonePlaceholderRemoved(rest: seq<string>)
    requires rest == [] || rest[0] != PlaceholderImage
    ensures ForEachSplice([PlaceholderImage] + rest) == ForEachSplice(rest)
  {
    if rest != [] {
      var x, t := rest[0], rest[1..];
      assert [PlaceholderImage] + rest == [PlaceholderImage, x] + t;
      assert rest == [x] + t;
      SpliceSkipsNext(x, t);
      SpliceKeeps(x, t);
    }
  }

  /** Two placeholders at the head of a run: the first goes, the second stays. */
  lemma RunHeadPair(k: nat, rest: seq<string>)
    requires k >= 2
    ensures ForEachSplice(Repeat(PlaceholderImage, k) + rest) ==
            [PlaceholderImage] + ForEachSplice(Repeat(PlaceholderImage, k - 2) + rest)
  {
    var P := PlaceholderImage;
    var run := Repeat(P, k - 2);
    assert Repeat(P, k - 1) == [P] + run;
    assert Repeat(P, k) + rest == [P, P] + (run + rest);
    SpliceSkipsNext(P, run + rest);
  }

  /** Runs of length 0 and 1 leave no placeholder. */
  lemma ShortRunRemoved(k: nat, rest: seq<string>)
    requires k < 2 && (rest == [] || rest[0] != PlaceholderImage)
    ensures ForEachSplice(Repeat(PlaceholderImage, k) + rest) == ForEachSplice(rest)
  {
    var run := Repeat(PlaceholderImage, k);
    if k == 0 {
      assert run == [];
      assert run + rest == rest;
    } else {
      assert run == [PlaceholderImage] + Repeat(PlaceholderImage, 0);
      assert run + rest == [PlaceholderImage] + rest;
      LonePlaceholderRemoved(rest);
    }
  }

  /** Lengthening a run by two leaves one more placeholder. */
  lemma RunHalvedStep(k: nat, rest: seq<string>)
    requires k >= 2
    requires ForEachSplice(Repeat(PlaceholderImage, k - 2) + rest) ==
             Repeat(PlaceholderImage, (k - 2) / 2) + ForEachSplice(rest)
    ensures ForEachSplice(Repeat(PlaceholderImage, k) + rest) == Repeat(PlaceholderImage, k / 2) + ForEachSplice(rest)
  {
    RunHeadPair(k, rest);
    var h := (k - 2) / 2;
    assert k / 2 == h + 1;
    assert Repeat(PlaceholderImage, h + 1) == [PlaceholderImage] + Repeat(PlaceholderImage, h);
  }

  /** A run of `k` adjacent placeholders leaves `k / 2` of them. */
  lemma {:induction false} PlaceholderRunHalved(k: nat, rest: seq<string>)
    requires rest == [] || rest[0] != PlaceholderImage
    ensures ForEachSplice(Repeat(PlaceholderImage, k) + rest) == Repeat(PlaceholderImage, k / 2) + ForEachSplice(rest)
  {
    if k < 2 {
      ShortRunRemoved(k, rest);
      assert Repeat(PlaceholderImage, k / 2) == [];
    } else {
      PlaceholderRunHalved(k - 2, rest);
      RunHalvedStep(k, rest);
    }
  }

  /**
   * After an element the loop keeps, it goes on as if the list started
   * there: what it leaves of `pre + t` is what it leaves of `pre` followed by
   * what it leaves of `t`, when `pre` does not end with a placeholder.
   */
  lemma {:induction false} ForEachSpliceSplit(pre: seq<string>, t: seq<string>)
    requires pre == [] || pre[|pre| - 1] != PlaceholderImage
    ensures ForEachSplice(pre + t) == ForEachSplice(pre) + ForEachSplice(t)
    decreases |pre|
  {
    if pre == [] {
      assert pre + t == t;
    } else if pre[0] != PlaceholderImage {
      ForEachSpliceSplit(pre[1..], t);
      SplitAfterKept(pre, t);
    } else {
      ForEachSpliceSplit(pre[2..], t);
      SplitAfterSkipped(pre, t);
    }
  }

  lemma SplitAfterKept(s: seq<string>, t: seq<string>)
    requires s != [] && s[0] != PlaceholderImage
    requires ForEachSplice(s[1..] + t) == ForEachSplice(s[1..]) + ForEachSplice(t)
    ensures ForEachSplice(s + t) == ForEachSplice(s) + ForEachSplice(t)
  {
    assert (s + t)[1..] == s[1..] + t;
  }

  lemma SplitAfterSkipped(s: seq<string>, t: seq<string>)
    requires |s| >= 2 && s[0] == PlaceholderImage
    requires ForEachSplice(s[2..] + t) == ForEachSplice(s[2..]) + ForEachSplice(t)
    ensures ForEachSplice(s + t) == ForEachSplice(s) + ForEachSplice(t)
  {
    assert (s + t)[2..] == s[2..] + t;
  }

  /** A run of `k` adjacent placeholders anywhere in the list leaves `k / 2` of them. */
  lemma RunAnywhereHalved(pre: seq<string>, k: nat, rest: seq<string>)
    requires pre == [] || pre[|pre| - 1] != PlaceholderImage
    requires rest == [] || rest[0] != PlaceholderImage
    ensures ForEachSplice(pre + Repeat(PlaceholderImage, k) + rest) ==
            ForEachSplice(pre) + Repeat(PlaceholderImage, k / 2) + ForEachSplice(rest)
  {
    var run := Repeat(PlaceholderImage, k);
    SplitBeforeRun(pre, run, rest);
    PlaceholderRunHalved(k, rest);
    SubstituteTail(ForEachSplice(pre + run + rest), ForEachSplice(pre), ForEachSplice(run + rest),
                   Repeat(PlaceholderImage, k / 2), ForEachSplice(rest));
  }

  lemma SubstituteTail(whole: seq<string>, a: seq<string>, y: seq<string>, h: seq<string>, b: seq<string>)
    requires whole == a + y && y == h + b
    ensures whole == a + h + b
  {
  }

  lemma SplitBeforeRun(pre: seq<string>, run: seq<string>, rest: seq<string>)
    requires pre == [] || pre[|pre| - 1] != PlaceholderImage
    ensures ForEachSplice(pre + run + rest) == ForEachSplice(pre) + ForEachSplice(run + rest)
  {
    assert pre + run + rest == pre + (run + rest);
    ForEachSpliceSplit(pre, run + rest);
  }

  predicate NoAdjacentPlaceholders(s: seq<string>)
  {
    forall i :: 0 <= i < |s| - 1 ==> !(s[i] == PlaceholderImage && s[i + 1] == PlaceholderImage)
  }

  /** When no two placeholders are adjacent, every placeholder is removed. */
  lemma {:induction false} IsolatedPlaceholdersRemoved(s: seq<string>)
    requires NoAdjacentPlaceholders(s)
    ensures PlaceholderImage !in ForEachSplice(s)
    decreases |s|
  {
    if s == [] {
    } else if s[0] == PlaceholderImage {
      if |s| > 1 {
        var t := s[2..];
        assert forall i :: 0 <= i < |t| ==> t[i] == s[i + 2];
        IsolatedPlaceholdersRemoved(t);
      }
    } else {
      var t := s[1..];
      assert forall i :: 0 <= i < |t| ==> t[i] == s[i + 1];
      IsolatedPlaceholdersRemoved(t);
    }
  }

  /** Two adjacent placeholders: the loop leaves one of them. */
  lemma AdjacentPlaceholdersSurvive()
    ensures ForEachSplice([PlaceholderImage, PlaceholderImage]) == [PlaceholderImage]
  {
    assert [PlaceholderImage, PlaceholderImage][2..] == [];
  }

  // ---------------------------------------------------------------------------
  // The booking decision of `commitForm` and the record of `addTradeRecord`
  // ---------------------------------------------------------------------------

  /** A record of the `trade` collection; `state` 0 means the trade is still pending. */
  datatype TradeRecord = TradeRecord(
    goodsId: string,
    state: int,
    tradePrice: Price,
    tradeTime: string,
    tradeSpot: string,
    originalPrice: Price,
    sellerOpenid: string,
    grade: string,
    college: string,
    name: string,
    isbn: string,
    imageList: seq<string>)

  /** The `updateGoods` cloud function call: set the state of a goods record. */
  datatype GoodsStateUpdate = GoodsStateUpdate(goodsId: string, state: int)

  /** The trades of one goods record: `where({goods_id: goodsId})`. */
  function TradesOf(trades: seq<TradeRecord>, goodsId: string): (r: seq<TradeRecord>)
    ensures forall t :: t in r <==> t in trades && t.goodsId == goodsId
  {
    Where(trades, (t: TradeRecord) => t.goodsId == goodsId)
  }

  /** `res.data.some(i => i.state == 0)` */
  predicate AnyPending(found: seq<TradeRecord>)
  {
    exists i :: 0 <= i < |found| && found[i].state == 0
  }

  datatype Decision = RejectPrice | AlreadyBooked | AddTrade

  /** `commitForm`: an empty price is refused; then the trade lookup decides. */
  function Decide(price: Price, found: seq<TradeRecord>): Decision
  {
    if !Truthy(price) then RejectPrice
    else if |found| > 0 then (if AnyPending(found) then AlreadyBooked else AddTrade)
    else AddTrade
  }

  /**
   * With a price set, a trade is added exactly when no trade of these goods
   * is pending; an empty lookup leads to an add; a falsy price to neither.
   */
  lemma BookingRule(price: Price, trades: seq<TradeRecord>, goodsId: string)
    ensures Decide(price, TradesOf(trades, goodsId)) == RejectPrice <==> !Truthy(price)
    ensures Truthy(price) ==>
      (Decide(price, TradesOf(trades, goodsId)) == AddTrade <==>
       forall t :: t in trades && t.goodsId == goodsId ==> t.state != 0)
    ensures Truthy(price) && TradesOf(trades, goodsId) == [] ==> Decide(price, TradesOf(trades, goodsId)) == AddTrade
  {
    var found := TradesOf(trades, goodsId);
    if Truthy(price) && AnyPending(found) {
      var i :| 0 <= i < |found| && found[i].state == 0;
      assert found[i] in found;
    }
    if Truthy(price) && !AnyPending(found) {
      forall t | t in trades && t.goodsId == goodsId ensures t.state != 0 {
        var i :| 0 <= i < |found| && found[i] == t;
      }
    }
  }

  /** The record `addTradeRecord` writes, from the book details and the page fields. */
  function NewTradeRecord(b: Goods, tradeTime: string, tradeSpot: string): (r: TradeRecord)
    ensures r.state == 0 && r.goodsId == b.id && r.sellerOpenid == b.openid
    ensures r.tradePrice == b.price && r.tradeTime == tradeTime && r.tradeSpot == tradeSpot
    ensures r.originalPrice == b.originalPrice && r.grade == b.grade && r.college == b.college
    ensures r.name == b.name && r.isbn == b.isbn && r.imageList == b.imageList
  {
    TradeRecord(b.id, 0, b.price, tradeTime, tradeSpot, b.originalPrice, b.openid,
                b.grade, b.college, b.name, b.isbn, b.imageList)
  }

  /** A written trade is pending, so a second request for the same goods is refused. */
  lemma AddedTradeBlocksRebooking(trades: seq<TradeRecord>, b: Goods, tradeTime: string, tradeSpot: string, price: Price)
    requires Truthy(price)
    ensures Decide(price, TradesOf(trades + [NewTradeRecord(b, tradeTime, tradeSpot)], b.id)) == AlreadyBooked
  {
    var t := NewTradeRecord(b, tradeTime, tradeSpot);
    var found := TradesOf(trades + [t], b.id);
    assert t in trades + [t];
    var i :| 0 <= i < |found| && found[i] == t;
  }

  /** The result of `commitForm` with the writes it issues. */
  datatype CommitOutcome =
    | PriceMissing
    | Booked
    | TradeAdded(record: TradeRecord, goodsUpdate: GoodsStateUpdate)

  /** The page that opened this one; only its `bookDetail` is touched. */
  class DetailPage {
    var bookDetail: Goods

    constructor (b: Goods)
      ensures bookDetail == b
    {
      bookDetail := b;
    }

    /** `setData({'bookDetail.state': 1})` */
    method MarkBooked()
      modifies this
      ensures bookDetail == old(bookDetail).(state := 1)
    {
      bookDetail := bookDetail.(state := 1);
    }
  }

  /** The state of the trade request page. */
  class LaunchTradePage {
    var bookDetail: Goods
    var showCalendar: bool
    var tradeTime: string
    var tradeSpot: string
    var minDate: string

    /** `onLoad`: the parsed book details and today's date as the trade date. */
    constructor OnLoad(parsed: Goods, year: nat, monthIndex: nat, day: nat)
      ensures bookDetail == parsed && tradeTime == FormatDate(year, monthIndex, day)
      ensures !showCalendar && tradeSpot == "" && minDate == ""
    {
      bookDetail := parsed;
      showCalendar := false;
      tradeTime := FormatDate(year, monthIndex, day);
      tradeSpot := "";
      minDate := "";
    }

    method DisplayCalendar()
      modifies this`showCalendar
      ensures showCalendar
    {
      showCalendar := true;
    }

    method CloseCalendar()
      modifies this`showCalendar
      ensures !showCalendar
    {
      showCalendar := false;
    }

    /** `confirmCalendar`, given the components of the chosen date. */
    method ConfirmCalendar(year: nat, monthIndex: nat, day: nat)
      modifies this`showCalendar, this`tradeTime
      ensures !showCalendar && tradeTime == FormatDate(year, monthIndex, day)
    {
      showCalendar := false;
      tradeTime := FormatDate(year, monthIndex, day);
    }

    /** `onChangeTradePrice`: only `bookDetail.price` changes. */
    method OnChangeTradePrice(detail: Price)
      modifies this`bookDetail
      ensures bookDetail == old(bookDetail).(price := detail)
    {
      bookDetail := bookDetail.(price := detail);
    }

    /** `onChangeTradeSpot`: only `trade_spot` changes. */
    method OnChangeTradeSpot(detail: string)
      modifies this`tradeSpot
      ensures tradeSpot == detail
    {
      tradeSpot := detail;
    }

    /**
     * `addTradeRecord`: drops placeholders from `bookDetail.image_list` in
     * place, writes the trade record, sets the goods state to 1 and marks the
     * previous page's book as booked.
     */
    method AddTradeRecord(prev: DetailPage) returns (record: TradeRecord, update: GoodsStateUpdate)
      modifies this`bookDetail, prev
      ensures bookDetail == old(bookDetail).(imageList := ForEachSplice(old(bookDetail).imageList))
      ensures record == NewTradeRecord(bookDetail, tradeTime, tradeSpot)
      ensures update == GoodsStateUpdate(bookDetail.id, 1)
      ensures prev.bookDetail == old(prev.bookDetail).(state := 1)
    {
      var kept := DropPlaceholders(bookDetail.imageList);
      bookDetail := bookDetail.(imageList := kept);
      record := NewTradeRecord(bookDetail, tradeTime, tradeSpot);
      update := GoodsStateUpdate(bookDetail.id, 1);
      prev.MarkBooked();
    }

    /**
     * `commitForm`, given the `trade` collection: a falsy price writes
     * nothing; a pending trade for these goods marks the previous page's book
     * as booked; otherwise the trade is added.
     */
    method CommitForm(trades: seq<TradeRecord>, prev: DetailPage) returns (outcome: CommitOutcome)
      modifies this`bookDetail, prev
      ensures var d := Decide(old(bookDetail).price, TradesOf(trades, old(bookDetail).id));
        && (d == RejectPrice ==>
              (outcome == PriceMissing && bookDetail == old(bookDetail) && prev.bookDetail == old(prev.bookDetail)))
        && (d == AlreadyBooked ==>
              (outcome == Booked && bookDetail == old(bookDetail) && prev.bookDetail == old(prev.bookDetail).(state := 1)))
        && (d == AddTrade ==>
              (bookDetail == old(bookDetail).(imageList := ForEachSplice(old(bookDetail).imageList)) &&
               outcome == TradeAdded(NewTradeRecord(bookDetail, tradeTime, tradeSpot), GoodsStateUpdate(bookDetail.id, 1)) &&
               prev.bookDetail == old(prev.bookDetail).(state := 1)))
    {
      if !Truthy(bookDetail.price) {
        return PriceMissing;
      }
      var found := TradesOf(trades, bookDetail.id);
      if |found| > 0 && AnyPending(found) {
        prev.MarkBooked();
        return Booked;
      }
      var record, update := AddTradeRecord(prev);
      outcome := TradeAdded(record, update);
    }
  }
}
