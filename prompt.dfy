/**
 * `build_prompt` and its inner `extract_tf_data` (app.py:39-75): index the
 * alerts by their "timeframe" entry, last alert winning, and render the fixed
 * analysis template with an H1, an M15 and an M5 section.
 */
module Prompt {
  import opened PyValue

  /** The placeholder for a missing value or a timeframe without an alert. */
  const NO_DATA := "ไม่มีข้อมูล"
  /** The default of a missing type, pattern or price. */
  const NOT_AVAILABLE := "N/A"

  const H1 := "H1"
  const M15 := "M15"
  const M5 := "M5"

  const TIME_LABEL := "📍 เวลา: "
  const SYMBOL_LABEL := "📌 สัญลักษณ์: "
  const H1_HEADING := "🔹 H1 Trend:\n"
  const M15_HEADING := "🔹 M15 Setup:\n"
  const M5_HEADING := "🔹 M5 Entry Confirm:\n"
  const TYPE_LABEL := "- ประเภท: "
  const PATTERN_LABEL := "- รูปแบบ: "
  const PRICE_LABEL := "- ราคา: "
  const INTRODUCTION := "\nวิเคราะห์ XAU/USD ตามกลยุทธ์ GoldScalpGPT:\n\n"
  const INSTRUCTIONS :=
    "\n\nวิเคราะห์ให้ชัดเจน:\n"
    + "- ทิศทาง: BUY หรือ SELL\n"
    + "- จุดเข้า (Entry), SL, TP1, TP2\n"
    + "- เหตุผลเข้าออเดอร์ (Confluence)\n"
    + "- ความเสี่ยง (Risk)\n"
    + "- เวลาถือคร่าว ๆ (Holding Time)\n"
    + "❌ ถ้าโครงสร้างยังไม่ชัดเจน หรือข้อมูลจาก Timeframe ต่างๆ ขัดแย้งกัน: ให้ตอบว่า WAIT และอธิบายเหตุผลอย่างละเอียด\n"

  /** The entries of one alert dict. */
  type Alert = Entries

  /** `alert.get("timeframe")`: the timeframe, or None when the alert has none. */
  function TimeframeOf(alert: Alert): Value
  {
    Get(alert, "timeframe", Null)
  }

  /** Every item is a dict whose timeframe can be a dict key. */
  predicate IsAlertList(items: seq<Value>)
  {
    forall k :: 0 <= k < |items| ==> items[k].Dict? && Hashable(TimeframeOf(items[k].entries))
  }

  /**
   * The pass of the dict comprehension over the items: `.get` on an item
   * that is not a dict raises AttributeError, an unhashable timeframe raises
   * TypeError, and the first item that fails decides.
   */
  function CollectAlerts(items: seq<Value>): (r: Outcome<seq<Alert>>)
    ensures r.Returned? <==> IsAlertList(items)
    ensures r.Returned? ==> |r.value| == |items| && forall k :: 0 <= k < |items| ==> items[k] == Dict(r.value[k])
  {
    if |items| == 0 then Returned([])
    else match items[0]
      case Dict(alert) =>
        if !Hashable(TimeframeOf(alert)) then Raised(TypeError)
        else (match CollectAlerts(items[1..])
          case Returned(rest) => Returned([alert] + rest)
          case Raised(e) => Raised(e))
      case _ => Raised(AttributeError)
  }

  /** `for alert in alerts`, then `CollectAlerts`. */
  function AlertEntries(alerts: Value): Outcome<seq<Alert>>
  {
    match Iterate(alerts)
    case Raised(e) => Raised(e)
    case Returned(items) => CollectAlerts(items)
  }

  /** Alert `i` has the last occurrence of its timeframe in `alerts`. */
  predicate IsLastOfTimeframe(alerts: seq<Alert>, i: int)
  {
    0 <= i < |alerts| && forall j :: i < j < |alerts| ==> TimeframeOf(alerts[j]) != TimeframeOf(alerts[i])
  }

  /** `{alert.get("timeframe"): alert for alert in alerts}`. */
  function IndexByTimeframe(alerts: seq<Alert>): (index: map<Value, Alert>)
    ensures forall tf :: tf in index ==> index[tf] in alerts
  {
    if |alerts| == 0 then map[]
    else
      var last := alerts[|alerts| - 1];
      IndexByTimeframe(alerts[..|alerts| - 1])[TimeframeOf(last) := last]
  }

  /** The index's keys are exactly the timeframes that occur in the alerts. */
  lemma {:induction false} IndexKeys(alerts: seq<Alert>, tf: Value)
    ensures tf in IndexByTimeframe(alerts) <==> exists i :: 0 <= i < |alerts| && TimeframeOf(alerts[i]) == tf
  {
    if |alerts| > 0 {
      var init := alerts[..|alerts| - 1];
      IndexKeys(init, tf);
      if exists i :: 0 <= i < |alerts| && TimeframeOf(alerts[i]) == tf {
        var i :| 0 <= i < |alerts| && TimeframeOf(alerts[i]) == tf;
        if i < |alerts| - 1 {
          assert TimeframeOf(init[i]) == tf;
        }
      }
    }
  }

  /** Each timeframe maps to the last alert that carries it. */
  lemma {:induction false} IndexLastWins(alerts: seq<Alert>, i: int)
    requires IsLastOfTimeframe(alerts, i)
    ensures TimeframeOf(alerts[i]) in IndexByTimeframe(alerts)
    ensures IndexByTimeframe(alerts)[TimeframeOf(alerts[i])] == alerts[i]
  {
    var init, last := alerts[..|alerts| - 1], alerts[|alerts| - 1];
    assert IndexByTimeframe(alerts) == IndexByTimeframe(init)[TimeframeOf(last) := last];
    if i < |alerts| - 1 {
      assert IsLastOfTimeframe(init, i) by {
        forall j | i < j < |init| ensures TimeframeOf(init[j]) != TimeframeOf(init[i]) {
          assert init[j] == alerts[j];
        }
      }
      IndexLastWins(init, i);
      assert TimeframeOf(last) != TimeframeOf(alerts[i]);
    }
  }

  /** `alert_data.get(key, "N/A")` as inserted in a section line. */
  function FieldText(alert: Alert, key: string): (text: string)
    ensures !HasKey(alert, key) ==> text == NOT_AVAILABLE
    ensures forall i :: BoundLastAt(alert, key, i) ==> text == ToStr(alert[i].1)
  {
    ToStr(Get(alert, key, Str(NOT_AVAILABLE)))
  }

  /** `s.split("\n")`. */
  function SplitLines(s: string): (lines: seq<string>)
    ensures |lines| > 0
  {
    if |s| == 0 then [""]
    else
      var rest := SplitLines(s[1..]);
      if s[0] == '\n' then [""] + rest else [[s[0]] + rest[0]] + rest[1..]
  }

  predicate NoNewline(s: string)
  {
    forall k :: 0 <= k < |s| ==> s[k] != '\n'
  }

  lemma {:induction false} SplitAfterLine(a: string, b: string)
    requires NoNewline(a)
    ensures SplitLines(a + "\n" + b) == [a] + SplitLines(b)
  {
    var s := a + "\n" + b;
    if |a| == 0 {
      assert s[1..] == b;
    } else {
      assert s[1..] == a[1..] + "\n" + b;
      SplitAfterLine(a[1..], b);
      assert [s[0]] + a[1..] == a;
    }
  }

  lemma {:induction false} SplitOneLine(a: string)
    requires NoNewline(a)
    ensures SplitLines(a) == [a]
  {
    if |a| > 0 {
      SplitOneLine(a[1..]);
      assert [a[0]] + a[1..] == a;
    }
  }

  /** Splitting lines joined by newlines gives the lines back. */
  lemma {:induction false} SplitInvertsJoin(lines: seq<string>)
    requires |lines| > 0 && forall k :: 0 <= k < |lines| ==> NoNewline(lines[k])
    ensures SplitLines(Join("\n", lines)) == lines
  {
    if |lines| == 1 {
      SplitOneLine(lines[0]);
    } else {
      SplitInvertsJoin(lines[1..]);
      SplitAfterLine(lines[0], Join("\n", lines[1..]));
      assert [lines[0]] + lines[1..] == lines;
    }
  }

  /** The lines of the section of an alert: its type, pattern and price. */
  function SectionLines(alert: Alert): seq<string>
  {
    [ TYPE_LABEL + FieldText(alert, "type"),
      PATTERN_LABEL + FieldText(alert, "pattern"),
      PRICE_LABEL + FieldText(alert, "price") ]
  }

  lemma NoNewlineAppend(a: string, b: string)
    requires NoNewline(a) && NoNewline(b)
    ensures NoNewline(a + b)
  {
    forall k | 0 <= k < |a + b| ensures (a + b)[k] != '\n' {
      if k >= |a| {
        assert (a + b)[k] == b[k - |a|];
      }
    }
  }

  lemma LabelsHaveNoNewline()
    ensures NoNewline(TYPE_LABEL) && NoNewline(PATTERN_LABEL) && NoNewline(PRICE_LABEL)
  {
  }

  /** Joined lines start with the first of them. */
  lemma {:induction false} JoinStartsWithFirst(sep: string, lines: seq<string>)
    requires |lines| > 0
    ensures |Join(sep, lines)| >= |lines[0]| && Join(sep, lines)[..|lines[0]|] == lines[0]
  {
    if |lines| > 1 {
      assert Join(sep, lines) == lines[0] + (sep + Join(sep, lines[1..]));
    }
  }

  /** The joined section starts with the type label, so it is not the placeholder. */
  lemma SectionIsNotPlaceholder(alert: Alert)
    ensures Join("\n", SectionLines(alert)) != NO_DATA
  {
    var lines := SectionLines(alert);
    JoinStartsWithFirst("\n", lines);
    assert lines[0][0] == '-';
    assert Join("\n", lines)[0] == lines[0][0];
  }

  /** Splitting the joined section gives its three lines back. */
  lemma SectionSplits(alert: Alert)
    requires NoNewline(FieldText(alert, "type")) && NoNewline(FieldText(alert, "pattern"))
             && NoNewline(FieldText(alert, "price"))
    ensures SplitLines(Join("\n", SectionLines(alert))) == SectionLines(alert)
  {
    LabelsHaveNoNewline();
    NoNewlineAppend(TYPE_LABEL, FieldText(alert, "type"));
    NoNewlineAppend(PATTERN_LABEL, FieldText(alert, "pattern"));
    NoNewlineAppend(PRICE_LABEL, FieldText(alert, "price"));
    SplitInvertsJoin(SectionLines(alert));
  }

  /**
   * The text of a timeframe that has an alert. It is never the placeholder
   * and, when no field text holds a newline, it has exactly three lines: the
   * type, the pattern and the price.
   */
  function Section(alert: Alert): (r: string)
    ensures r != NO_DATA
    ensures (NoNewline(FieldText(alert, "type")) && NoNewline(FieldText(alert, "pattern"))
             && NoNewline(FieldText(alert, "price")))
            ==> SplitLines(r) == SectionLines(alert)
  {
    SectionIsNotPlaceholder(alert);
    if NoNewline(FieldText(alert, "type")) && NoNewline(FieldText(alert, "pattern"))
       && NoNewline(FieldText(alert, "price"))
    then SectionSplits(alert); Join("\n", SectionLines(alert))
    else Join("\n", SectionLines(alert))
  }

  /**
   * `extract_tf_data(tf)`: the placeholder exactly when the index has no
   * non-empty alert under `tf`, and that alert's section otherwise.
   */
  function ExtractTfData(index: map<Value, Alert>, tf: string): (r: string)
    ensures r == NO_DATA <==> !(Str(tf) in index && |index[Str(tf)]| > 0)
    ensures Str(tf) in index && |index[Str(tf)]| > 0 ==> r == Section(index[Str(tf)])
  {
    if Str(tf) in index && |index[Str(tf)]| > 0 then Section(index[Str(tf)]) else NO_DATA
  }

  /** The f-string template of `build_prompt`, given its five insertions. */
  function Layout(time: string, symbol: string, h1: string, m15: string, m5: string): string
  {
    Concat(Pieces(time, symbol, h1, m15, m5))
  }

  /** The template cut into its text pieces; sections sit at 3, 5 and 7. */
  function Pieces(time: string, symbol: string, h1: string, m15: string, m5: string): seq<string>
  {
    [ INTRODUCTION,
      TIME_LABEL + time + "\n",
      SYMBOL_LABEL + symbol + "\n\n",
      H1_HEADING + h1, "\n\n",
      M15_HEADING + m15, "\n\n",
      M5_HEADING + m5,
      INSTRUCTIONS ]
  }

  function Concat(parts: seq<string>): string
  {
    if |parts| == 0 then "" else parts[0] + Concat(parts[1..])
  }

  /**
   * `build_prompt(symbol, alerts, time)`. It raises exactly when `alerts`
   * cannot be iterated, is a non-empty string or object (whose items are
   * strings, not dicts), or is a list holding an item that is not a dict or
   * a dict whose timeframe is a list or an object.
   */
  function BuildPrompt(symbol: Value, alerts: Value, time: Value): (r: Outcome<string>)
    ensures r.Raised? <==>
      (alerts.Null? || alerts.Bool? || alerts.Int? || alerts.Float?
       || (alerts.Str? && alerts.s != "")
       || (alerts.Dict? && alerts.entries != [])
       || (alerts.List? && !IsAlertList(alerts.items)))
  {
    match AlertEntries(alerts)
    case Raised(e) => Raised(e)
    case Returned(entries) =>
      var index := IndexByTimeframe(entries);
      Returned(Layout(ToStr(time), ToStr(symbol),
                      ExtractTfData(index, H1), ExtractTfData(index, M15), ExtractTfData(index, M5)))
  }

  // ---------------------------------------------------------------------
  // Properties of the prompt
  // ---------------------------------------------------------------------

  /** `t` occurs in `s` starting at position `p`. */
  predicate OccursAt(s: string, p: int, t: string)
  {
    0 <= p && p + |t| <= |s| && s[p..p + |t|] == t
  }

  /** An alert that the index holds under a string timeframe is never empty. */
  lemma {:induction false} IndexedAlertIsNonEmpty(alerts: seq<Alert>, tf: string)
    requires Str(tf) in IndexByTimeframe(alerts)
    ensures |IndexByTimeframe(alerts)[Str(tf)]| > 0
  {
    if |alerts| > 0 {
      var last := alerts[|alerts| - 1];
      if TimeframeOf(last) == Str(tf) {
        assert HasKey(last, "timeframe");
      } else {
        IndexedAlertIsNonEmpty(alerts[..|alerts| - 1], tf);
      }
    }
  }

  /**
   * A timeframe's section is the placeholder exactly when no alert carries
   * that timeframe; the "empty alert" placeholder case never arises.
   */
  lemma SectionIsPlaceholderIffNoAlert(alerts: seq<Alert>, tf: string)
    ensures ExtractTfData(IndexByTimeframe(alerts), tf) == NO_DATA <==>
      forall i :: 0 <= i < |alerts| ==> TimeframeOf(alerts[i]) != Str(tf)
  {
    IndexKeys(alerts, Str(tf));
    if Str(tf) in IndexByTimeframe(alerts) {
      IndexedAlertIsNonEmpty(alerts, tf);
    }
  }

  /**
   * When several alerts share a timeframe, the last of them is the one
   * rendered, as its type, pattern and price lines.
   */
  lemma SectionShowsLastAlert(alerts: seq<Alert>, tf: string, i: int)
    requires IsLastOfTimeframe(alerts, i) && TimeframeOf(alerts[i]) == Str(tf)
    ensures ExtractTfData(IndexByTimeframe(alerts), tf) == Section(alerts[i])
  {
    IndexLastWins(alerts, i);
    IndexedAlertIsNonEmpty(alerts, tf);
  }

  /** Item `k` of the alert list is a dict whose timeframe is `tf`. */
  predicate CarriesTimeframe(items: seq<Value>, k: int, tf: string)
  {
    0 <= k < |items| && items[k].Dict? && TimeframeOf(items[k].entries) == Str(tf)
  }

  /**
   * What the prompt should show for `tf`, read straight off the alert list
   * without an index: searching from the end, the section of the first
   * alert with timeframe `tf`, or the placeholder when there is none.
   */
  function LastSection(items: seq<Value>, tf: string): string
  {
    if |items| == 0 then NO_DATA
    else if CarriesTimeframe(items, |items| - 1, tf) then Section(items[|items| - 1].entries)
    else LastSection(items[..|items| - 1], tf)
  }

  lemma {:induction false} LastSectionWithoutCarrier(items: seq<Value>, tf: string)
    requires forall k :: 0 <= k < |items| ==> !CarriesTimeframe(items, k, tf)
    ensures LastSection(items, tf) == NO_DATA
  {
    if |items| > 0 {
      var init := items[..|items| - 1];
      assert !CarriesTimeframe(items, |items| - 1, tf);
      forall k | 0 <= k < |init| ensures !CarriesTimeframe(init, k, tf) {
        assert init[k] == items[k] && !CarriesTimeframe(items, k, tf);
      }
      LastSectionWithoutCarrier(init, tf);
    }
  }

  lemma {:induction false} LastSectionWithCarrier(items: seq<Value>, tf: string, k: int)
    requires CarriesTimeframe(items, k, tf)
    ensures LastSection(items, tf) != NO_DATA
  {
    if !CarriesTimeframe(items, |items| - 1, tf) {
      var init := items[..|items| - 1];
      assert init[k] == items[k];
      LastSectionWithCarrier(init, tf, k);
    }
  }

  /** The search finds the placeholder exactly when no alert carries `tf`. */
  lemma LastSectionIsPlaceholderIffNone(items: seq<Value>, tf: string)
    ensures LastSection(items, tf) == NO_DATA <==> forall k :: 0 <= k < |items| ==> !CarriesTimeframe(items, k, tf)
  {
    if exists k :: CarriesTimeframe(items, k, tf) {
      var k :| CarriesTimeframe(items, k, tf);
      LastSectionWithCarrier(items, tf, k);
    } else {
      LastSectionWithoutCarrier(items, tf);
    }
  }

  /** The search finds the section of the last alert that carries `tf`. */
  lemma {:induction false} LastSectionShowsLast(items: seq<Value>, tf: string, i: int)
    requires CarriesTimeframe(items, i, tf)
    requires forall j :: i < j < |items| ==> !CarriesTimeframe(items, j, tf)
    ensures LastSection(items, tf) == Section(items[i].entries)
  {
    if i < |items| - 1 {
      var init := items[..|items| - 1];
      assert init[i] == items[i];
      forall j | i < j < |init| ensures !CarriesTimeframe(init, j, tf) {
        assert init[j] == items[j] && !CarriesTimeframe(items, j, tf);
      }
      LastSectionShowsLast(init, tf, i);
    }
  }

  /**
   * The lookup in the timeframe index built by the comprehension agrees
   * with the search from the end of the alert list.
   */
  lemma {:induction false} ExtractMatchesLastSection(items: seq<Value>, alerts: seq<Alert>, tf: string)
    requires |alerts| == |items| && forall k :: 0 <= k < |items| ==> items[k] == Dict(alerts[k])
    ensures ExtractTfData(IndexByTimeframe(alerts), tf) == LastSection(items, tf)
  {
    if |items| > 0 {
      var init, last := alerts[..|alerts| - 1], alerts[|alerts| - 1];
      ExtractMatchesLastSection(items[..|items| - 1], init, tf);
      var index := IndexByTimeframe(init)[TimeframeOf(last) := last];
      assert IndexByTimeframe(alerts) == index;
      assert items[|items| - 1].entries == last;
      if TimeframeOf(last) == Str(tf) {
        assert HasKey(last, "timeframe");
      } else {
        assert Str(tf) in index <==> Str(tf) in IndexByTimeframe(init);
      }
    }
  }

  /**
   * A prompt `build_prompt` returns shows, for each of H1, M15 and M5, the
   * section of the last alert with that timeframe, or the placeholder.
   */
  lemma PromptShowsLastAlerts(symbol: Value, alerts: Value, time: Value)
    requires BuildPrompt(symbol, alerts, time).Returned?
    ensures var items := Iterate(alerts).value;
      BuildPrompt(symbol, alerts, time).value ==
        Layout(ToStr(time), ToStr(symbol), LastSection(items, H1), LastSection(items, M15), LastSection(items, M5))
  {
    var items := Iterate(alerts).value;
    var entries := CollectAlerts(items).value;
    ExtractMatchesLastSection(items, entries, H1);
    ExtractMatchesLastSection(items, entries, M15);
    ExtractMatchesLastSection(items, entries, M5);
  }

  /** A timeframe that `build_prompt` renders a section for. */
  predicate IsSectionTimeframe(tf: Value)
  {
    tf == Str(H1) || tf == Str(M15) || tf == Str(M5)
  }

  /** The alerts whose timeframe is H1, M15 or M5, in their original order. */
  function Relevant(items: seq<Value>): (r: seq<Value>)
    ensures forall x :: x in r ==> x in items && x.Dict? && IsSectionTimeframe(TimeframeOf(x.entries))
  {
    if |items| == 0 then []
    else
      var last := items[|items| - 1];
      Relevant(items[..|items| - 1])
      + (if last.Dict? && IsSectionTimeframe(TimeframeOf(last.entries)) then [last] else [])
  }

  lemma {:induction false} SearchAgreesOnRelevant(items: seq<Value>, tf: string)
    requires IsSectionTimeframe(Str(tf))
    ensures LastSection(items, tf) == LastSection(Relevant(items), tf)
  {
    if |items| > 0 {
      var init, last := items[..|items| - 1], items[|items| - 1];
      SearchAgreesOnRelevant(init, tf);
      var kept := Relevant(items);
      if last.Dict? && IsSectionTimeframe(TimeframeOf(last.entries)) {
        assert kept == Relevant(init) + [last];
        assert kept[..|kept| - 1] == Relevant(init) && kept[|kept| - 1] == last;
        assert CarriesTimeframe(kept, |kept| - 1, tf) == CarriesTimeframe(items, |items| - 1, tf);
      } else {
        assert kept == Relevant(init);
        assert !CarriesTimeframe(items, |items| - 1, tf);
      }
    }
  }

  /**
   * Only the alerts whose timeframe is H1, M15 or M5 reach the prompt:
   * dropping every other alert, including those without a timeframe, leaves
   * it unchanged.
   */
  lemma OtherTimeframesIgnored(symbol: Value, items: seq<Value>, time: Value)
    requires IsAlertList(items)
    ensures BuildPrompt(symbol, List(items), time) == BuildPrompt(symbol, List(Relevant(items)), time)
  {
    var kept := Relevant(items);
    assert IsAlertList(kept) by {
      forall k | 0 <= k < |kept| ensures kept[k].Dict? && Hashable(TimeframeOf(kept[k].entries)) {
        assert kept[k] in kept;
      }
    }
    PromptShowsLastAlerts(symbol, List(items), time);
    PromptShowsLastAlerts(symbol, List(kept), time);
    SearchAgreesOnRelevant(items, H1);
    SearchAgreesOnRelevant(items, M15);
    SearchAgreesOnRelevant(items, M5);
  }

  /** Piece `k` of `parts` occurs in their concatenation after the pieces before it. */
  lemma {:induction false} PieceOccurs(parts: seq<string>, k: nat)
    requires k < |parts|
    ensures OccursAt(Concat(parts), |Concat(parts[..k])|, parts[k])
  {
    var whole := Concat(parts);
    assert whole == parts[0] + Concat(parts[1..]);
    if k == 0 {
      assert whole[0..|parts[0]|] == parts[0];
    } else {
      PieceOccurs(parts[1..], k - 1);
      assert parts[1..][..k - 1] == parts[..k][1..];
      assert Concat(parts[..k]) == parts[0] + Concat(parts[..k][1..]);
      var q := |Concat(parts[1..][..k - 1])|;
      assert whole[|parts[0]| + q..|parts[0]| + q + |parts[k]|] == Concat(parts[1..])[q..q + |parts[k]|];
    }
  }

  /** The text before piece `k + 1` is the text before piece `k`, then piece `k`. */
  lemma {:induction false} ConcatSnoc(parts: seq<string>, k: nat)
    requires k < |parts|
    ensures Concat(parts[..k + 1]) == Concat(parts[..k]) + parts[k]
  {
    if k > 0 {
      ConcatSnoc(parts[1..], k - 1);
      assert parts[1..][..k] == parts[..k + 1][1..];
      assert parts[1..][..k - 1] == parts[..k][1..];
    } else {
      assert parts[..1][1..] == [];
    }
  }

  /** A non-empty piece ends before any later piece starts. */
  lemma {:induction false} PiecesInOrder(parts: seq<string>, i: nat, j: nat)
    requires i < j < |parts| && |parts[i]| > 0
    ensures |Concat(parts[..i])| < |Concat(parts[..j])|
  {
    ConcatSnoc(parts, j - 1);
    if i < j - 1 {
      PiecesInOrder(parts, i, j - 1);
    }
  }

  /**
   * The template shows the time line, then the symbol line, then the H1,
   * the M15 and the M5 heading each followed by its section, in that order.
   */
  lemma LayoutOrder(time: string, symbol: string, h1: string, m15: string, m5: string)
    returns (pTime: nat, pSymbol: nat, pH1: nat, pM15: nat, pM5: nat)
    ensures var prompt := Layout(time, symbol, h1, m15, m5);
      && pTime < pSymbol < pH1 < pM15 < pM5
      && OccursAt(prompt, pTime, TIME_LABEL + time + "\n")
      && OccursAt(prompt, pSymbol, SYMBOL_LABEL + symbol + "\n\n")
      && OccursAt(prompt, pH1, H1_HEADING + h1)
      && OccursAt(prompt, pM15, M15_HEADING + m15)
      && OccursAt(prompt, pM5, M5_HEADING + m5)
  {
    var parts := Pieces(time, symbol, h1, m15, m5);
    PieceOccurs(parts, 1);
    PieceOccurs(parts, 2);
    PieceOccurs(parts, 3);
    PieceOccurs(parts, 5);
    PieceOccurs(parts, 7);
    PiecesInOrder(parts, 1, 2);
    PiecesInOrder(parts, 2, 3);
    PiecesInOrder(parts, 3, 5);
    PiecesInOrder(parts, 5, 7);
    assert |parts[1]| > 0 && |parts[2]| > 0 && |parts[3]| > 0 && |parts[5]| > 0;
    pTime, pSymbol, pH1 := |Concat(parts[..1])|, |Concat(parts[..2])|, |Concat(parts[..3])|;
    pM15, pM5 := |Concat(parts[..5])|, |Concat(parts[..7])|;
  }
}
