/**
 * The extraction rules that both scripts share word for word: the six
 * field keys with their fallback values, and the rule that turns the
 * page text into each of code, number, date and amount, plus the list of
 * company names that each script then assigns in its own way.
 */
module Extraction {
  import opened Wrappers
  import opened Text
  import opened Patterns

  const DefaultCode: string := "未知代码"
  const DefaultNumber: string := "未知号码"
  const DefaultDate: string := "未知日期"
  const DefaultAmount: string := "0.00"
  const DefaultSeller: string := "未知销售方"
  const DefaultBuyer: string := "未知购买方"

  /** The extracted invoice: one value per key of the script's dictionary. */
  datatype Invoice = Invoice(code: string, number: string, date: string, amount: string,
                             seller: string, buyer: string)

  /** The dictionary the rename templates are filled from. */
  type Fields = map<string, string>

  const FieldKeys: set<string> := {"code", "number", "date", "amount", "seller", "buyer"}

  /** Before any rule has run, every key holds its fallback value. */
  const DefaultInvoice: Invoice :=
    Invoice(DefaultCode, DefaultNumber, DefaultDate, DefaultAmount, DefaultSeller, DefaultBuyer)

  /** Each field holds its fallback or a value of its own pattern's class. */
  predicate WellFormed(inv: Invoice) {
    && (inv.code == DefaultCode || AllIn(inv.code, Digit))
    && (inv.number == DefaultNumber || AllIn(inv.number, Digit))
    && (inv.date == DefaultDate || (|inv.date| == 8 && AllIn(inv.date, Digit)))
    && AllIn(inv.amount, AmountChar)
    && (inv.seller == DefaultSeller || AllIn(inv.seller, NameChar))
    && (inv.buyer == DefaultBuyer || AllIn(inv.buyer, NameChar))
  }

  /** The invoice as the dictionary keyed by field name. */
  function Dict(inv: Invoice): (f: Fields)
    ensures f.Keys == FieldKeys
    ensures f["code"] == inv.code && f["number"] == inv.number && f["date"] == inv.date
    ensures f["amount"] == inv.amount && f["seller"] == inv.seller && f["buyer"] == inv.buyer
  {
    map["code" := inv.code, "number" := inv.number, "date" := inv.date,
        "amount" := inv.amount, "seller" := inv.seller, "buyer" := inv.buyer]
  }

  /** `match.group(1)` of `re.search`, for a single-group pattern. */
  function Capture(p: Pattern, s: string): (r: Option<string>)
    requires p != Date
    ensures r.Some? ==> r.value != [] && AllIn(r.value, ClassOf(p))
    ensures r.None? <==> Search(p, s).None?
    ensures r.Some? ==> r.value == Search(p, s).value.groups[0]
  {
    match Search(p, s)
    case Some(m) => Some(m.groups[0])
    case None => None
  }

  /** Rule 1: the digits after `发票代码` and a colon, or the fallback. */
  function CodeOf(s: string): (r: string)
    ensures r == DefaultCode <==> Search(Code, s).None?
    ensures r != DefaultCode ==> r != [] && AllIn(r, Digit)
    ensures Search(Code, s).Some? ==> r == Search(Code, s).value.groups[0]
  {
    assert !IsDigit(DefaultCode[0]);
    Capture(Code, s).GetOr(DefaultCode)
  }

  /** Rule 2: the digits after `发票号码` and a colon, or the fallback. */
  function NumberOf(s: string): (r: string)
    ensures r == DefaultNumber <==> Search(Number, s).None?
    ensures r != DefaultNumber ==> r != [] && AllIn(r, Digit)
    ensures Search(Number, s).Some? ==> r == Search(Number, s).value.groups[0]
  {
    assert !IsDigit(DefaultNumber[0]);
    Capture(Number, s).GetOr(DefaultNumber)
  }

  /** `f"{year}{month.zfill(2)}{day.zfill(2)}"` of a date match's groups. */
  function DateValue(g: seq<string>): (r: string)
    requires Captures(Date, g)
    ensures |r| == 8 && AllIn(r, Digit)
    ensures r[..4] == g[0]
    ensures Value(r[4..6]) == Value(g[1]) && Value(r[6..8]) == Value(g[2])
  {
    PadTwo(g[1]);
    PadTwo(g[2]);
    var r := g[0] + ZFill(g[1], 2) + ZFill(g[2], 2);
    assert r[4..6] == ZFill(g[1], 2) && r[6..8] == ZFill(g[2], 2);
    r
  }

  /** Zero-padding one or two digits to two keeps them digits and keeps their value. */
  lemma PadTwo(d: string)
    requires 1 <= |d| <= 2 && AllIn(d, Digit)
    ensures |ZFill(d, 2)| == 2 && AllIn(ZFill(d, 2), Digit)
    ensures Value(ZFill(d, 2)) == Value(d)
  {
    var z := ZFill(d, 2);
    if |d| == 1 {
      assert z == ['0', d[0]];
      assert z[..1] == ['0'];
      assert z[..1][..0] == [];
      assert d[..0] == [];
    }
  }

  /** Rule 3: the first `YYYY年M月D日` as `YYYYMMDD`, or the fallback. */
  function DateOf(s: string): (r: string)
    ensures r == DefaultDate <==> Search(Date, s).None?
    ensures r != DefaultDate ==> |r| == 8 && AllIn(r, Digit)
    ensures Search(Date, s).Some? ==> r == DateValue(Search(Date, s).value.groups)
  {
    match Search(Date, s)
    case Some(m) => DateValue(m.groups)
    case None => DefaultDate
  }

  /**
   * Rule 4: the amount after `(小写)`; only when that pattern finds nothing,
   * the first amount after a yen sign that follows `价税合计`; else the fallback.
   */
  function AmountOf(s: string): (r: string)
    ensures Search(Small, s).Some? ==> r == Search(Small, s).value.groups[0]
    ensures Search(Small, s).None? && Search(Total, s).Some? ==> r == Search(Total, s).value.groups[0]
    ensures Search(Small, s).None? && Search(Total, s).None? ==> r == DefaultAmount
    ensures r != [] && AllIn(r, AmountChar)
  {
    match Capture(Small, s)
    case Some(a) => a
    case None => Capture(Total, s).GetOr(DefaultAmount)
  }

  /**
   * Rule 5's raw material: every `名称：...` capture, left to right,
   * non-overlapping. The first is the capture of the leftmost match; the
   * rest are found from where that match ends.
   */
  function Names(s: string): (r: seq<string>)
    ensures forall k :: 0 <= k < |r| ==> r[k] != [] && AllIn(r[k], NameChar)
    ensures r == [] <==> Search(Name, s).None?
    ensures r != [] ==> r[0] == Search(Name, s).value.groups[0] && r[1..] == FindAll(Name, s, Search(Name, s).value.end)
  {
    FindAllStartsWithSearch(Name, s);
    FindAll(Name, s, 0)
  }

  /** The capture of a single-group pattern is that of its leftmost match. */
  lemma LeftmostCapture(p: Pattern, s: string, i: nat)
    requires p != Date && i < |s| && MatchAt(p, s, i).Some?
    requires forall j :: 0 <= j < i ==> MatchAt(p, s, j).None?
    ensures Capture(p, s) == Some(MatchAt(p, s, i).value.groups[0])
  {
    SearchIsLeftmost(p, s, i);
  }

  /**
   * The first `发票代码`, colon, whitespace and digits in the text give the
   * code: its digit run.
   */
  lemma CodeFound(s: string, i: nat, w: nat, e: nat)
    requires HasAt(s, i, CodeLabel) && i + 4 < |s| && IsColon(s[i + 4])
    requires Span(s, i + 5, w, Space) && w < e && Span(s, w, e, Digit) && (e == |s| || !IsDigit(s[e]))
    requires forall j :: 0 <= j < i ==> MatchAt(Code, s, j).None?
    ensures CodeOf(s) == s[w..e]
  {
    LabelledDigitsFound(s, i, CodeLabel, w, e);
    LeftmostCapture(Code, s, i);
  }

  /**
   * The first `发票号码`, colon, whitespace and digits in the text give the
   * number: its digit run.
   */
  lemma NumberFound(s: string, i: nat, w: nat, e: nat)
    requires HasAt(s, i, NumberLabel) && i + 4 < |s| && IsColon(s[i + 4])
    requires Span(s, i + 5, w, Space) && w < e && Span(s, w, e, Digit) && (e == |s| || !IsDigit(s[e]))
    requires forall j :: 0 <= j < i ==> MatchAt(Number, s, j).None?
    ensures NumberOf(s) == s[w..e]
  {
    LabelledDigitsFound(s, i, NumberLabel, w, e);
    LeftmostCapture(Number, s, i);
  }

  /**
   * The first `(小写)` amount in the text gives the amount: its run of
   * digits and dots, whatever the fallback pattern would find.
   */
  lemma SmallAmountFound(s: string, i: nat, a: nat, b: nat, c: nat, w: nat, e: nat)
    requires HasAt(s, i, SmallLabel)
    requires a == if i + 4 < |s| && IsColon(s[i + 4]) then i + 5 else i + 4
    requires Span(s, a, b, Space) && (b == |s| || !IsSpace(s[b]))
    requires c == if b < |s| && IsYen(s[b]) then b + 1 else b
    requires Span(s, c, w, Space) && w < e && Span(s, w, e, AmountChar) && (e == |s| || !IsAmountChar(s[e]))
    requires forall j :: 0 <= j < i ==> MatchAt(Small, s, j).None?
    ensures AmountOf(s) == s[w..e]
  {
    SmallFound(s, i, a, b, c, w, e);
    LeftmostCapture(Small, s, i);
  }

  /** `发票代码：123` gives the code `123`. */
  lemma CodeExample(s: string)
    requires s == "发票代码：123"
    ensures CodeOf(s) == "123"
  {
    assert s[5..8] == "123";
    assert s[0..4] == CodeLabel;
    CodeFound(s, 0, 5, 8);
  }

  /** `(小写)¥12.30` gives the amount `12.30`. */
  lemma AmountExample(s: string)
    requires s == "(小写)¥12.30"
    ensures AmountOf(s) == "12.30"
  {
    assert s[5..10] == "12.30";
    assert s[0..4] == SmallLabel;
    SmallAmountFound(s, 0, 4, 4, 5, 5, 10);
  }

  /** In `2023年5月1日` the year is the first four characters, followed at once by `年`. */
  lemma YearExample(s: string)
    requires s == "2023年5月1日"
    ensures RunEnd(s, 0, Digit) == 4 && RunEnd(s, 4, Space) == 4 && s[4] == '年'
    ensures s[0..4] == "2023"
  {
    assert RunEnd(s, 4, Digit) == 4;
    assert RunEnd(s, 3, Digit) == 4;
    assert RunEnd(s, 2, Digit) == 4;
    assert RunEnd(s, 1, Digit) == 4;
  }

  /** In `2023年5月1日` the month is `5`, followed at once by `月`. */
  lemma MonthExample(s: string)
    requires s == "2023年5月1日"
    ensures UnitPartAt(s, 5, '月') == Some((5, 6, 7)) && s[5..6] == "5"
  {
    assert RunEnd(s, 5, Space) == 5;
    assert RunEnd(s, 6, Digit) == 6 && RunEnd(s, 5, Digit) == 6;
    assert RunEnd(s, 6, Space) == 6;
  }

  /** In `2023年5月1日` the day is `1`, followed at once by `日`. */
  lemma DayExample(s: string)
    requires s == "2023年5月1日"
    ensures UnitPartAt(s, 7, '日') == Some((7, 8, 9)) && s[7..8] == "1"
  {
    assert RunEnd(s, 7, Space) == 7;
    assert RunEnd(s, 8, Digit) == 8 && RunEnd(s, 7, Digit) == 8;
    assert RunEnd(s, 8, Space) == 8;
  }

  /** The date scanner at the start of `2023年5月1日` matches all of it. */
  lemma DateAtExample(s: string)
    requires s == "2023年5月1日"
    ensures DateAt(s, 0) == Some(Match(9, ["2023", "5", "1"]))
  {
    YearExample(s);
    MonthExample(s);
    DayExample(s);
  }

  /** `re.search` of the date pattern in `2023年5月1日` finds the whole string. */
  lemma DateMatchExample(s: string)
    requires s == "2023年5月1日"
    ensures Search(Date, s) == Some(Match(9, ["2023", "5", "1"]))
  {
    DateAtExample(s);
    assert MatchAt(Date, s, 0) == DateAt(s, 0);
    SearchIsLeftmost(Date, s, 0);
  }

  /** The groups `2023`, `5`, `1` are written `20230501`. */
  lemma DateValueExample()
    ensures DateValue(["2023", "5", "1"]) == "20230501"
  {
    assert Zeros(1) == "0";
    assert ZFill("5", 2) == "05" && ZFill("1", 2) == "01";
  }

  /** `2023年5月1日` gives `20230501`. */
  lemma DateExample(s: string)
    requires s == "2023年5月1日"
    ensures DateOf(s) == "20230501"
  {
    DateMatchExample(s);
    DateValueExample();
  }
}
