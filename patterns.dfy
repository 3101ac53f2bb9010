/**
 * The fixed regular expressions of the field extractor, each written out
 * as a scanner that tries to match at one position, together with the
 * leftmost search of `re.search` and the non-overlapping left-to-right
 * scan of `re.findall`.
 *
 * Backtracking never changes where a greedy repetition stops. In most
 * places a repeated class is followed by an element that cannot match a
 * character of that class: whitespace is followed by a colon, a yen sign,
 * a digit or a name character, and a digit run by whitespace or a CJK
 * unit. The one exception is `\s*[¥￥]?\s*` of the `(小写)` pattern. There,
 * giving back whitespace from the first run only hands it to the second
 * run, and leaving out a yen sign that is present makes the amount start
 * at the yen sign, which is no amount character. So a deterministic
 * greedy scan finds exactly the match the regular expression engine finds
 * at that position. The `...Found` lemmas state the converse of each
 * scanner's contract: text of the pattern's shape does match, with the
 * expected groups.
 */
module Patterns {
  import opened Wrappers
  import opened Text

  const CodeLabel: string := "发票代码"
  const NumberLabel: string := "发票号码"
  const SmallLabel: string := "(小写)"
  const TotalLabel: string := "价税合计"
  const NameLabel: string := "名称"

  datatype Pattern =
    | Code    // 发票代码[:：]\s*(\d+)
    | Number  // 发票号码[:：]\s*(\d+)
    | Date    // (\d{4})\s*年\s*(\d{1,2})\s*月\s*(\d{1,2})\s*日
    | Small   // \(小写\)[:：]?\s*[¥￥]?\s*([\d\.]+)
    | Yen     // [¥￥]\s*([\d\.]+), the part of Total after its lazy gap
    | Total   // 价税合计.*?[¥￥]\s*([\d\.]+) under re.DOTALL
    | Name    // 名称[:：]\s*([一-龥A-Za-z0-9\(\)（）]+)

  /** A match: the position just past it and its capture groups. */
  datatype Match = Match(end: nat, groups: seq<string>)

  /** The class of a single-group pattern's capture. */
  function ClassOf(p: Pattern): CharClass {
    match p
    case Code | Number | Date => Digit
    case Small | Yen | Total => AmountChar
    case Name => NameChar
  }

  /** What each pattern's capture groups look like. */
  predicate Captures(p: Pattern, g: seq<string>) {
    if p == Date then
      && |g| == 3 && |g[0]| == 4 && 1 <= |g[1]| <= 2 && 1 <= |g[2]| <= 2
      && AllIn(g[0], Digit) && AllIn(g[1], Digit) && AllIn(g[2], Digit)
    else
      |g| == 1 && g[0] != [] && AllIn(g[0], ClassOf(p))
  }

  /**
   * The single capture of `m` is a maximal run of class `k` in `s`: it is
   * the text just before `m.end`, and neither neighbour belongs to `k`.
   */
  predicate MaximalCapture(s: string, m: Match, k: CharClass) {
    && |m.groups| == 1
    && |m.groups[0]| < m.end <= |s|
    && s[m.end - |m.groups[0]|..m.end] == m.groups[0]
    && !In(s[m.end - |m.groups[0]| - 1], k)
    && (m.end == |s| || !In(s[m.end], k))
  }

  /** `m` ends after `i`, and its single capture is a non-empty maximal run of class `k`. */
  predicate RunMatch(s: string, i: nat, m: Match, k: CharClass) {
    && i < m.end
    && MaximalCapture(s, m, k)
    && m.groups[0] != []
    && AllIn(m.groups[0], k)
  }

  /** Where the single capture of `m` starts. */
  function CaptureStart(m: Match): int {
    if m.groups == [] then m.end else m.end - |m.groups[0]|
  }

  /** `(...+)` at `w`: the greedy run of class `k`, which must not be empty. */
  function CaptureRun(s: string, w: nat, k: CharClass): (r: Option<Match>)
    requires 0 < w <= |s| && !In(s[w - 1], k)
    ensures r.Some? <==> w < |s| && In(s[w], k)
    ensures r.Some? ==> RunMatch(s, w, r.value, k) && r.value.end - |r.value.groups[0]| == w
  {
    var e := RunEnd(s, w, k);
    if w < e then
      RunSlice(s, w, e, k);
      Some(Match(e, [s[w..e]]))
    else None
  }

  /** `\d{1,2}` at `b`: where it stops. */
  function UpToTwoDigits(s: string, b: nat): (e: nat)
    requires b <= |s|
    ensures b <= e <= b + 2 && e <= |s|
    ensures forall m :: b <= m < e ==> IsDigit(s[m])
    ensures e < b + 2 ==> e == |s| || !IsDigit(s[e])
  {
    var r := RunEnd(s, b, Digit);
    if r > b + 2 then b + 2 else r
  }

  /** `tag[:：]\s*(\d+)` at `i`. */
  function LabelledDigitsAt(s: string, i: nat, tag: string): (r: Option<Match>)
    requires i <= |s| && tag != []
    requires forall m :: 0 <= m < |tag| ==> !IsDigit(tag[m])
    ensures r.Some? ==> RunMatch(s, i, r.value, Digit)
    ensures r.Some? ==>
      && HasAt(s, i, tag) && i + |tag| < |s| && IsColon(s[i + |tag|])
      && Span(s, i + |tag| + 1, CaptureStart(r.value), Space)
  {
    var c := i + |tag|;
    if HasAt(s, i, tag) && c < |s| && IsColon(s[c]) then
      var w := RunEnd(s, c + 1, Space);
      CaptureRun(s, w, Digit)
    else None
  }

  /**
   * The text from `start` reads `\s*(\d{1,2})\s*unit`, with the digits at
   * `part.0..part.1` and `unit` just before `part.2`.
   */
  predicate UnitText(s: string, start: nat, unit: char, part: (nat, nat, nat)) {
    && start <= part.0 < part.1 <= part.0 + 2 && part.1 < part.2 <= |s|
    && Span(s, start, part.0, Space) && Span(s, part.0, part.1, Digit)
    && Span(s, part.1, part.2 - 1, Space) && s[part.2 - 1] == unit
  }

  /**
   * `\s*(\d{1,2})\s*` and then the character `unit`, from `start`: the
   * bounds of the one or two digits and the position just past `unit`.
   */
  function UnitPartAt(s: string, start: nat, unit: char): (r: Option<(nat, nat, nat)>)
    requires start <= |s|
    ensures r.Some? ==> UnitText(s, start, unit, r.value)
  {
    var b := RunEnd(s, start, Space);
    var e := UpToTwoDigits(s, b);
    var c := RunEnd(s, e, Space);
    if b < e && c < |s| && s[c] == unit then
      Some((b, e, c + 1))
    else None
  }

  /** The match of the date pattern from its year at `i` and its month and day parts. */
  function DateMatch(s: string, i: nat, month: (nat, nat, nat), day: (nat, nat, nat)): (m: Match)
    requires Span(s, i, i + 4, Digit)
    requires month.0 < month.1 <= month.0 + 2 && Span(s, month.0, month.1, Digit)
    requires day.0 < day.1 <= day.0 + 2 && Span(s, day.0, day.1, Digit)
    ensures Captures(Date, m.groups)
  {
    RunSlice(s, i, i + 4, Digit);
    RunSlice(s, month.0, month.1, Digit);
    RunSlice(s, day.0, day.1, Digit);
    var g := [s[i..i + 4], s[month.0..month.1], s[day.0..day.1]];
    assert g[0] == s[i..i + 4] && g[1] == s[month.0..month.1] && g[2] == s[day.0..day.1];
    Match(day.2, g)
  }

  /** `(\d{4})\s*年` at `i`: the position just past `年`. */
  function YearAt(s: string, i: nat): (r: Option<nat>)
    requires i <= |s|
    ensures r.Some? ==> i + 4 < r.value <= |s| && s[r.value - 1] == '年'
    ensures r.Some? ==> Span(s, i, i + 4, Digit) && Span(s, i + 4, r.value - 1, Space)
  {
    if i + 4 <= |s| && RunEnd(s, i, Digit) >= i + 4 then
      var a := RunEnd(s, i + 4, Space);
      if a < |s| && s[a] == '年' then
        Some(a + 1)
      else None
    else None
  }

  /**
   * The text at `i` reads `(\d{4})\s*年\s*(\d{1,2})\s*月\s*(\d{1,2})\s*日`,
   * with `年` just before `y` and the month and day parts at `month` and `day`.
   */
  predicate DateText(s: string, i: nat, y: nat, month: (nat, nat, nat), day: (nat, nat, nat)) {
    && i + 4 < y <= |s| && Span(s, i, i + 4, Digit) && Span(s, i + 4, y - 1, Space) && s[y - 1] == '年'
    && UnitText(s, y, '月', month) && UnitText(s, month.2, '日', day)
  }

  /** `(\d{4})\s*年\s*(\d{1,2})\s*月\s*(\d{1,2})\s*日` at `i`. */
  function DateAt(s: string, i: nat): (r: Option<Match>)
    requires i <= |s|
    ensures r.Some? ==> i < r.value.end <= |s| && Captures(Date, r.value.groups)
    ensures r.Some? ==> exists y: nat, month: (nat, nat, nat), day: (nat, nat, nat) ::
      DateText(s, i, y, month, day) && r.value == DateMatch(s, i, month, day)
  {
    match YearAt(s, i)
    case None => None
    case Some(y) =>
      match UnitPartAt(s, y, '月')
      case None => None
      case Some(month) =>
        match UnitPartAt(s, month.2, '日')
        case None => None
        case Some(day) =>
          PartsAreDateText(s, i, y, month, day);
          Some(DateMatch(s, i, month, day))
  }

  /** `s[a..w]` reads `\s*[¥￥]?\s*`: whitespace, with at most one yen sign among it. */
  predicate YenGap(s: string, a: nat, w: nat) {
    || Span(s, a, w, Space)
    || exists y :: a <= y < w <= |s| && IsYen(s[y]) && Span(s, a, y, Space) && Span(s, y + 1, w, Space)
  }

  /** `\(小写\)[:：]?\s*[¥￥]?\s*([\d\.]+)` at `i`. */
  function SmallAt(s: string, i: nat): (r: Option<Match>)
    requires i <= |s|
    ensures r.Some? ==> RunMatch(s, i, r.value, AmountChar)
    ensures r.Some? ==>
      && HasAt(s, i, SmallLabel)
      && YenGap(s, if i + 4 < |s| && IsColon(s[i + 4]) then i + 5 else i + 4, CaptureStart(r.value))
  {
    if HasAt(s, i, SmallLabel) then
      assert s[i + 3] == s[i..i + 4][3] == ')';
      var a := if i + 4 < |s| && IsColon(s[i + 4]) then i + 5 else i + 4;
      var b := RunEnd(s, a, Space);
      var c := if b < |s| && IsYen(s[b]) then b + 1 else b;
      var w := RunEnd(s, c, Space);
      assert c > b ==> Span(s, a, b, Space) && Span(s, b + 1, w, Space);
      CaptureRun(s, w, AmountChar)
    else None
  }

  /** `[¥￥]\s*([\d\.]+)` at `i`. */
  function YenAt(s: string, i: nat): (r: Option<Match>)
    requires i <= |s|
    ensures r.Some? ==> RunMatch(s, i, r.value, AmountChar)
    ensures r.Some? ==> i < |s| && IsYen(s[i]) && Span(s, i + 1, CaptureStart(r.value), Space)
  {
    if i < |s| && IsYen(s[i]) then CaptureRun(s, RunEnd(s, i + 1, Space), AmountChar)
    else None
  }

  /** `名称[:：]\s*([一-龥A-Za-z0-9\(\)（）]+)` at `i`. */
  function NameAt(s: string, i: nat): (r: Option<Match>)
    requires i <= |s|
    ensures r.Some? ==> RunMatch(s, i, r.value, NameChar)
    ensures r.Some? ==>
      && HasAt(s, i, NameLabel) && i + 2 < |s| && IsColon(s[i + 2])
      && Span(s, i + 3, CaptureStart(r.value), Space)
  {
    if HasAt(s, i, NameLabel) && i + 2 < |s| && IsColon(s[i + 2]) then
      CaptureRun(s, RunEnd(s, i + 3, Space), NameChar)
    else None
  }

  /**
   * A label, a colon, whitespace and a maximal digit run match
   * `tag[:：]\s*(\d+)`, with the digit run as the group.
   */
  lemma LabelledDigitsFound(s: string, i: nat, tag: string, w: nat, e: nat)
    requires tag != [] && forall m :: 0 <= m < |tag| ==> !IsDigit(tag[m])
    requires HasAt(s, i, tag) && i + |tag| < |s| && IsColon(s[i + |tag|])
    requires Span(s, i + |tag| + 1, w, Space) && w < e && Span(s, w, e, Digit) && (e == |s| || !IsDigit(s[e]))
    ensures LabelledDigitsAt(s, i, tag) == Some(Match(e, [s[w..e]]))
  {
    assert !IsSpace(s[w]);
    RunEndIs(s, i + |tag| + 1, w, Space);
    RunEndIs(s, w, e, Digit);
  }

  /**
   * Whitespace, one or two digits, whitespace and `unit` match
   * `\s*(\d{1,2})\s*unit`.
   */
  lemma UnitPartFound(s: string, start: nat, unit: char, part: (nat, nat, nat))
    requires !IsSpace(unit) && !IsDigit(unit)
    requires UnitText(s, start, unit, part)
    ensures UnitPartAt(s, start, unit) == Some(part)
  {
    var (b, e, c) := (part.0, part.1, part.2 - 1);
    assert !IsSpace(s[b]);
    RunEndIs(s, start, b, Space);
    assert !IsDigit(s[e]);
    RunEndIs(s, b, e, Digit);
    RunEndIs(s, e, c, Space);
  }

  /**
   * Four digits, whitespace, `年`, then a month part and a day part match
   * the date pattern, with the year, month and day digits as the groups.
   */
  lemma DateFound(s: string, i: nat, y: nat, month: (nat, nat, nat), day: (nat, nat, nat))
    requires DateText(s, i, y, month, day)
    ensures DateAt(s, i) == Some(DateMatch(s, i, month, day))
  {
    DatePartsFound(s, i, y, month, day);
    DateOfParts(s, i, y, month, day);
  }

  /** Where the year, month and day scanners all succeed, the text is date-shaped. */
  lemma PartsAreDateText(s: string, i: nat, y: nat, month: (nat, nat, nat), day: (nat, nat, nat))
    requires i <= |s| && YearAt(s, i) == Some(y)
    requires UnitPartAt(s, y, '月') == Some(month) && UnitPartAt(s, month.2, '日') == Some(day)
    ensures DateText(s, i, y, month, day)
  {
  }

  /** Each part of date-shaped text is found by its own scanner. */
  lemma DatePartsFound(s: string, i: nat, y: nat, month: (nat, nat, nat), day: (nat, nat, nat))
    requires DateText(s, i, y, month, day)
    ensures YearAt(s, i) == Some(y)
    ensures UnitPartAt(s, y, '月') == Some(month) && UnitPartAt(s, month.2, '日') == Some(day)
  {
    YearFound(s, i, y - 1);
    UnitPartFound(s, y, '月', month);
    UnitPartFound(s, month.2, '日', day);
  }

  /** The date scanner combines its year, month and day parts. */
  lemma DateOfParts(s: string, i: nat, y: nat, month: (nat, nat, nat), day: (nat, nat, nat))
    requires i <= |s| && YearAt(s, i) == Some(y)
    requires UnitPartAt(s, y, '月') == Some(month) && UnitPartAt(s, month.2, '日') == Some(day)
    ensures DateAt(s, i) == Some(DateMatch(s, i, month, day))
  {
  }

  /** Four digits, whitespace and `年` match `(\d{4})\s*年`. */
  lemma YearFound(s: string, i: nat, a: nat)
    requires Span(s, i, i + 4, Digit) && Span(s, i + 4, a, Space) && a < |s| && s[a] == '年'
    ensures YearAt(s, i) == Some(a + 1)
  {
    if a == i + 4 {
      assert s[i + 4] == '年';
    } else {
      assert IsSpace(s[i + 4]);
    }
    RunEndIs(s, i, i + 4, Digit);
    RunEndIs(s, i + 4, a, Space);
  }

  /**
   * `(小写)`, a colon if there is one, whitespace, a yen sign if there is
   * one, whitespace and a maximal amount run match the `(小写)` pattern,
   * with the amount run as the group.
   */
  lemma SmallFound(s: string, i: nat, a: nat, b: nat, c: nat, w: nat, e: nat)
    requires HasAt(s, i, SmallLabel)
    requires a == if i + 4 < |s| && IsColon(s[i + 4]) then i + 5 else i + 4
    requires Span(s, a, b, Space) && (b == |s| || !IsSpace(s[b]))
    requires c == if b < |s| && IsYen(s[b]) then b + 1 else b
    requires Span(s, c, w, Space) && w < e && Span(s, w, e, AmountChar) && (e == |s| || !IsAmountChar(s[e]))
    ensures SmallAt(s, i) == Some(Match(e, [s[w..e]]))
  {
    RunEndIs(s, a, b, Space);
    assert !IsSpace(s[w]);
    RunEndIs(s, c, w, Space);
    RunEndIs(s, w, e, AmountChar);
  }

  /** A yen sign, whitespace and a maximal amount run match `[¥￥]\s*([\d\.]+)`. */
  lemma YenFound(s: string, i: nat, w: nat, e: nat)
    requires i < |s| && IsYen(s[i])
    requires Span(s, i + 1, w, Space) && w < e && Span(s, w, e, AmountChar) && (e == |s| || !IsAmountChar(s[e]))
    ensures YenAt(s, i) == Some(Match(e, [s[w..e]]))
  {
    assert !IsSpace(s[w]);
    RunEndIs(s, i + 1, w, Space);
    RunEndIs(s, w, e, AmountChar);
  }

  /** `名称`, a colon, whitespace and a maximal run of name characters match the name pattern. */
  lemma NameFound(s: string, i: nat, w: nat, e: nat)
    requires HasAt(s, i, NameLabel) && i + 2 < |s| && IsColon(s[i + 2])
    requires Span(s, i + 3, w, Space) && w < e && Span(s, w, e, NameChar) && (e == |s| || !IsNameChar(s[e]))
    ensures NameAt(s, i) == Some(Match(e, [s[w..e]]))
  {
    assert !IsSpace(s[w]);
    RunEndIs(s, i + 3, w, Space);
    RunEndIs(s, w, e, NameChar);
  }

  /** The least index in `from..n` that satisfies `ok`, if there is one. */
  function FirstWhere(n: nat, from: nat, ok: nat -> bool): (r: Option<nat>)
    requires from <= n
    ensures r.Some? ==> from <= r.value < n && ok(r.value)
    ensures forall j :: from <= j < n && (r.None? || j < r.value) ==> !ok(j)
    decreases n - from
  {
    if from == n then None
    else if ok(from) then Some(from)
    else FirstWhere(n, from + 1, ok)
  }

  /** A yen amount starts at `j`. */
  predicate YenStarts(s: string, j: nat) {
    j <= |s| && YenAt(s, j).Some?
  }

  /**
   * `价税合计.*?[¥￥]\s*([\d\.]+)` at `i`: the lazy `.*?` after the label is
   * the search for the first position where a yen amount follows.
   */
  function TotalAt(s: string, i: nat): (r: Option<Match>)
    requires i <= |s|
    ensures r.Some? ==> RunMatch(s, i, r.value, AmountChar)
    ensures r.Some? ==> HasAt(s, i, TotalLabel) && exists j :: (
      && i + |TotalLabel| <= j < |s| && r == YenAt(s, j)
      && forall k :: i + |TotalLabel| <= k < j ==> YenAt(s, k).None?)
  {
    if HasAt(s, i, TotalLabel) then
      var ok := (j: nat) => YenStarts(s, j);
      var f := FirstWhere(|s|, i + |TotalLabel|, ok);
      if f.Some? then
        forall k | i + |TotalLabel| <= k < f.value
          ensures YenAt(s, k).None?
        {
          assert !ok(k);
        }
        YenAt(s, f.value)
      else None
    else None
  }

  /** The text at `i` opens the way pattern `p` requires: its label, its year digits or its yen sign. */
  predicate Leads(p: Pattern, s: string, i: nat) {
    match p
    case Code => HasAt(s, i, CodeLabel)
    case Number => HasAt(s, i, NumberLabel)
    case Date => Span(s, i, i + 4, Digit)
    case Small => HasAt(s, i, SmallLabel)
    case Yen => i < |s| && IsYen(s[i])
    case Total => HasAt(s, i, TotalLabel)
    case Name => HasAt(s, i, NameLabel)
  }

  /** The match of pattern `p` that starts exactly at `i`, if any. */
  function MatchAt(p: Pattern, s: string, i: nat): (r: Option<Match>)
    requires i <= |s|
    ensures r.Some? ==> i < r.value.end <= |s| && Captures(p, r.value.groups)
    ensures r.Some? && p != Date ==> MaximalCapture(s, r.value, ClassOf(p))
    ensures r.Some? ==> Leads(p, s, i)
  {
    if p == Date then DateAt(s, i)
    else
      var r := match p
        case Code => LabelledDigitsAt(s, i, CodeLabel)
        case Number => LabelledDigitsAt(s, i, NumberLabel)
        case Small => SmallAt(s, i)
        case Yen => YenAt(s, i)
        case Name => NameAt(s, i)
        case Total => TotalAt(s, i);
      RunMatchCaptures(p, s, i, r);
      r
  }

  /** A maximal run of the pattern's class is a capture of that pattern. */
  lemma RunMatchCaptures(p: Pattern, s: string, i: nat, r: Option<Match>)
    requires p != Date
    requires r.Some? ==> RunMatch(s, i, r.value, ClassOf(p))
    ensures r.Some? ==> i < r.value.end <= |s| && Captures(p, r.value.groups) && MaximalCapture(s, r.value, ClassOf(p))
  {
  }

  /**
   * `价税合计` followed, at the first position after it where one starts, by
   * a yen amount: the fallback pattern matches with that amount's match.
   */
  lemma TotalFound(s: string, i: nat, j: nat)
    requires HasAt(s, i, TotalLabel) && i + |TotalLabel| <= j <= |s| && YenAt(s, j).Some?
    requires forall k :: i + |TotalLabel| <= k < j ==> YenAt(s, k).None?
    ensures TotalAt(s, i) == YenAt(s, j)
  {
    var ok := (k: nat) => YenStarts(s, k);
    var f := FirstWhere(|s|, i + |TotalLabel|, ok);
    assert ok(j);
    assert f == Some(j);
  }

  /** The leftmost position at or after `from` where `p` matches. */
  function FirstMatch(p: Pattern, s: string, from: nat): (r: Option<nat>)
    requires from <= |s|
    ensures r.Some? ==> from <= r.value < |s| && MatchAt(p, s, r.value).Some?
    ensures forall j :: from <= j < |s| && (r.None? || j < r.value) ==> MatchAt(p, s, j).None?
  {
    var ok := (j: nat) => j <= |s| && MatchAt(p, s, j).Some?;
    var r := FirstWhere(|s|, from, ok);
    forall j | from <= j < |s| && (r.None? || j < r.value)
      ensures MatchAt(p, s, j).None?
    {
      assert !ok(j);
    }
    r
  }

  /** `re.search(p, s)`: the leftmost match. */
  function Search(p: Pattern, s: string): (r: Option<Match>)
    ensures r.Some? ==> Captures(p, r.value.groups)
    ensures r.None? <==> forall j :: 0 <= j < |s| ==> MatchAt(p, s, j).None?
  {
    match FirstMatch(p, s, 0)
    case Some(i) => assert MatchAt(p, s, i).Some?; MatchAt(p, s, i)
    case None => None
  }

  /** `re.search` returns the match at the leftmost position where the pattern matches. */
  lemma SearchIsLeftmost(p: Pattern, s: string, i: nat)
    requires i < |s| && MatchAt(p, s, i).Some?
    requires forall j :: 0 <= j < i ==> MatchAt(p, s, j).None?
    ensures Search(p, s) == MatchAt(p, s, i)
  {
    var f := FirstMatch(p, s, 0);
    assert f.Some? && f.value == i;
  }

  /**
   * `re.findall(p, s)` from `from` on, for a pattern with one group: the
   * captures of successive non-overlapping matches, each search starting
   * where the previous match ended.
   */
  function FindAll(p: Pattern, s: string, from: nat): (r: seq<string>)
    requires from <= |s| && p != Date
    ensures forall k :: 0 <= k < |r| ==> r[k] != [] && AllIn(r[k], ClassOf(p))
    decreases |s| - from
  {
    match FirstMatch(p, s, from)
    case None => []
    case Some(i) =>
      var m := MatchAt(p, s, i).value;
      [m.groups[0]] + FindAll(p, s, m.end)
  }

  /** `findall` from `from` is empty exactly when no position from there on matches. */
  lemma FindAllEmpty(p: Pattern, s: string, from: nat)
    requires from <= |s| && p != Date
    ensures FindAll(p, s, from) == [] <==> forall j :: from <= j < |s| ==> MatchAt(p, s, j).None?
  {
    var f := FirstMatch(p, s, from);
    if f.Some? {
      assert MatchAt(p, s, f.value).Some?;
    }
  }

  /**
   * `findall` from `from` is the capture of the leftmost match at or after
   * `from`, followed by `findall` from where that match ends: the items are
   * the captures of successive non-overlapping matches.
   */
  lemma FindAllStep(p: Pattern, s: string, from: nat, i: nat)
    requires p != Date && from <= i < |s| && MatchAt(p, s, i).Some?
    requires forall j :: from <= j < i ==> MatchAt(p, s, j).None?
    ensures FindAll(p, s, from) ==
      [MatchAt(p, s, i).value.groups[0]] + FindAll(p, s, MatchAt(p, s, i).value.end)
  {
    var f := FirstMatch(p, s, from);
    assert f.Some? && f.value == i;
  }

  /** `findall` finds something exactly when `search` does, and its first item is `search`'s capture. */
  lemma FindAllStartsWithSearch(p: Pattern, s: string)
    requires p != Date
    ensures FindAll(p, s, 0) == [] <==> Search(p, s).None?
    ensures FindAll(p, s, 0) != [] ==> FindAll(p, s, 0)[0] == Search(p, s).value.groups[0]
  {
  }

  /**
   * The lazy gap of the fallback: once the first occurrence of the label
   * is followed by no yen-amount, no later position matches either, so the
   * fallback effectively only looks after the first label.
   */
  lemma TotalFailsAfterFailedLabel(s: string, i: nat, j: nat)
    requires i < j <= |s| && HasAt(s, i, TotalLabel) && MatchAt(Total, s, i).None?
    ensures MatchAt(Total, s, j).None?
  {
    if HasAt(s, j, TotalLabel) {
      var ok := (k: nat) => YenStarts(s, k);
      var f := FirstWhere(|s|, j + |TotalLabel|, ok);
      if f.Some? {
        assert false;
      }
    }
  }
}
