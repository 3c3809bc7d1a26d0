/**
 * `RecommendSourceCrawler.run`: the dedup gate on a fetched snapshot and the
 * creation of one `win_rate_daily` row followed by one `stock_recommended`
 * row per recommended stock. The fetched content, the parsed report date and
 * today's date are inputs.
 */
module Crawler {
  import opened Wrappers
  import opened WinRate
  import opened Models

  /** One entry of `vtIntelliStock`: `sSecName` and the raw `sDtSecCode`. */
  datatype StockEntry = StockEntry(secName: string, dtSecCode: string)

  /** The fetched `stIntelliPickStockV2` object, with `sDate` already parsed. */
  datatype Content = Content(
    sDate: Date,
    vtAvgIncrease: seq<real>,
    vtSuccPercent: seq<real>,
    vtIntelliStock: seq<StockEntry>)

  /** How one call of `run` ends: early return, rows written, or an exception. */
  datatype RunOutcome = Skipped | Persisted | Failed(error: DerivationError)

  /** What one call of `run` does to the store: its outcome and the rows it commits, in order. */
  datatype Effect = Effect(outcome: RunOutcome, written: seq<Row>)

  /** The code slice `[4:]`: drops the 4-character market prefix; shorter codes become empty. */
  function StripPrefix(code: string): (r: string)
    ensures |r| == if |code| <= 4 then 0 else |code| - 4
    ensures forall i :: 0 <= i < |r| ==> r[i] == code[i + 4]
  {
    if |code| <= 4 then "" else code[4..]
  }

  /** The decimal spelling of a non-negative integer, most significant digit first. */
  function DecimalText(n: nat): string
  {
    if n < 10 then [Digit(n)] else DecimalText(n / 10) + [Digit(n % 10)]
  }

  /** The character of one decimal digit. */
  function Digit(d: nat): (c: char)
    requires d < 10
    ensures '0' <= c <= '9'
  {
    (48 + d) as char
  }

  /**
   * Whether the integer column `recommend_source_id` compares equal to a
   * text parameter: the database converts the text to a number, which for
   * a canonical decimal spelling means the text spells the integer.
   */
  predicate ColumnMatchesText(column: nat, text: string)
  {
    text == DecimalText(column)
  }

  /**
   * The lookup as written: a `win_rate_daily` row dated `date` whose
   * `recommend_source_id` matches the EXTERNAL `source_id` text.
   */
  predicate WinRateExists(commits: seq<Row>, date: Date, sourceId: string)
  {
    exists i :: 0 <= i < |commits| && commits[i].WinRateCommit? &&
      commits[i].winRate.recommendDate == date &&
      ColumnMatchesText(commits[i].winRate.recommendSourceId, sourceId)
  }

  /** The gate of `run`: today's report, and no row found by the lookup. */
  predicate ShouldPersist(commits: seq<Row>, source: RecommendSource, rDate: Date, today: Date)
  {
    rDate == today && !WinRateExists(commits, rDate, source.sourceId)
  }

  /** The `stock_recommended` row written for one stock entry. */
  function StockRowOf(recommendSourceId: nat, recommendDate: Date, entry: StockEntry): StockRow
  {
    StockRow(recommendSourceId, recommendDate, entry.secName, StripPrefix(entry.dtSecCode))
  }

  /** The rows the stock loop commits for `entries`, in list order. */
  function StockRows(recommendSourceId: nat, recommendDate: Date, entries: seq<StockEntry>): seq<Row>
  {
    if entries == [] then []
    else StockRows(recommendSourceId, recommendDate, entries[..|entries| - 1])
         + [StockCommit(StockRowOf(recommendSourceId, recommendDate, entries[|entries| - 1]))]
  }

  /** Extending the stock list by one entry appends exactly that entry's row. */
  lemma StockRowsStep(recommendSourceId: nat, recommendDate: Date, entries: seq<StockEntry>, k: nat)
    requires k < |entries|
    ensures StockRows(recommendSourceId, recommendDate, entries[..k + 1])
         == StockRows(recommendSourceId, recommendDate, entries[..k]) + [StockCommit(StockRowOf(recommendSourceId, recommendDate, entries[k]))]
  {
    assert entries[..k + 1][..k] == entries[..k];
  }

  /** The writes after the gate has passed: the win-rate row, then the stock rows. */
  function Persist(source: RecommendSource, content: Content): Effect
  {
    match DeriveWinRate(source.id, content.sDate, content.vtAvgIncrease, content.vtSuccPercent)
    case Failure(e) => Effect(Failed(e), [])
    case Success(row) => Effect(Persisted, [WinRateCommit(row)] + StockRows(source.id, content.sDate, content.vtIntelliStock))
  }

  /** The effect of one `run` on a store whose committed rows are `commits`. */
  function RunEffect(commits: seq<Row>, source: RecommendSource, content: Content, today: Date): Effect
  {
    if ShouldPersist(commits, source, content.sDate, today) then Persist(source, content)
    else Effect(Skipped, [])
  }

  /** The stock loop writes one row per entry, entry `i` at position `i`, each with the stripped code. */
  lemma {:induction false} StockRowsAt(recommendSourceId: nat, recommendDate: Date, entries: seq<StockEntry>)
    ensures |StockRows(recommendSourceId, recommendDate, entries)| == |entries|
    ensures forall i :: 0 <= i < |entries| ==>
      StockRows(recommendSourceId, recommendDate, entries)[i]
        == StockCommit(StockRow(recommendSourceId, recommendDate, entries[i].secName, StripPrefix(entries[i].dtSecCode)))
  {
    if entries != [] {
      var init := entries[..|entries| - 1];
      StockRowsAt(recommendSourceId, recommendDate, init);
      assert forall i :: 0 <= i < |init| ==> init[i] == entries[i];
    }
  }

  /** A report dated other than today writes nothing, whatever the store holds. */
  lemma NotTodayWritesNothing(commits: seq<Row>, source: RecommendSource, content: Content, today: Date)
    requires content.sDate != today
    ensures RunEffect(commits, source, content, today) == Effect(Skipped, [])
  {
  }

  /** A row found by the lookup on `(sDate, source_id)` stops the run before any write. */
  lemma FoundRowWritesNothing(commits: seq<Row>, source: RecommendSource, content: Content, today: Date, i: nat)
    requires i < |commits| && commits[i].WinRateCommit?
    requires commits[i].winRate.recommendDate == content.sDate
    requires ColumnMatchesText(commits[i].winRate.recommendSourceId, source.sourceId)
    ensures RunEffect(commits, source, content, today) == Effect(Skipped, [])
  {
  }

  /**
   * `run` writes something exactly when the gate passes and both arrays are
   * non-empty; when the gate passes with an empty array it raises the error
   * of the first empty array and writes nothing.
   */
  lemma RunOutcomeCases(commits: seq<Row>, source: RecommendSource, content: Content, today: Date)
    ensures var e := RunEffect(commits, source, content, today);
      && (e.written != [] <==> e.outcome == Persisted)
      && (e.outcome == Persisted <==>
            ShouldPersist(commits, source, content.sDate, today) && content.vtAvgIncrease != [] && content.vtSuccPercent != [])
      && (e.outcome == Skipped <==> !ShouldPersist(commits, source, content.sDate, today))
      && (e.outcome == Failed(EmptyAvgIncrease) <==>
            ShouldPersist(commits, source, content.sDate, today) && content.vtAvgIncrease == [])
      && (e.outcome == Failed(EmptySuccPercent) <==>
            ShouldPersist(commits, source, content.sDate, today) && content.vtAvgIncrease != [] && content.vtSuccPercent == [])
  {
  }

  /**
   * A run that persists commits exactly one win-rate row, first, keyed by the
   * internal id and the report date, holding both raw arrays and their
   * derived peaks; then one stock row per entry of `vtIntelliStock`, in list
   * order, with the same key and the code stripped of its prefix.
   */
  lemma PersistedWrites(commits: seq<Row>, source: RecommendSource, content: Content, today: Date)
    requires RunEffect(commits, source, content, today).outcome == Persisted
    ensures var e := RunEffect(commits, source, content, today);
      && content.sDate == today
      && |e.written| == 1 + |content.vtIntelliStock|
      && e.written[0].WinRateCommit?
      && e.written[0].winRate.recommendSourceId == source.id
      && e.written[0].winRate.recommendDate == content.sDate
      && e.written[0].winRate.sAvgIncrease == content.vtAvgIncrease
      && e.written[0].winRate.sSuccPercent == content.vtSuccPercent
      && IsPeak(content.vtAvgIncrease, e.written[0].winRate.avgIncrease)
      && IsFirstPosition(content.vtAvgIncrease, e.written[0].winRate.avgIncrease, e.written[0].winRate.keepDay)
      && IsPeak(content.vtSuccPercent, e.written[0].winRate.succPercent)
      && (forall i :: 0 <= i < |content.vtIntelliStock| ==>
            e.written[i + 1] == StockCommit(StockRow(source.id, content.sDate, content.vtIntelliStock[i].secName,
                                               StripPrefix(content.vtIntelliStock[i].dtSecCode))))
  {
    var d := DeriveWinRate(source.id, content.sDate, content.vtAvgIncrease, content.vtSuccPercent);
    var stocks := StockRows(source.id, content.sDate, content.vtIntelliStock);
    assert RunEffect(commits, source, content, today).written == [WinRateCommit(d.value)] + stocks;
    StockRowsAt(source.id, content.sDate, content.vtIntelliStock);
  }

  /**
   * When the external id is the decimal spelling of the internal id, the
   * lookup finds the row the first run wrote: a second run on a report of
   * the same date writes nothing.
   */
  lemma SecondRunSkippedWhenIdsCoincide(commits: seq<Row>, source: RecommendSource, first: Content, second: Content, today: Date)
    requires source.sourceId == DecimalText(source.id)
    requires RunEffect(commits, source, first, today).outcome == Persisted
    requires second.sDate == first.sDate
    ensures RunEffect(commits + RunEffect(commits, source, first, today).written, source, second, today) == Effect(Skipped, [])
  {
    var after := commits + RunEffect(commits, source, first, today).written;
    var row := DeriveWinRate(source.id, first.sDate, first.vtAvgIncrease, first.vtSuccPercent).value;
    assert after[|commits|] == WinRateCommit(row);
    assert WinRateExists(after, second.sDate, source.sourceId);
  }

  /**
   * As written, when the external id is not the decimal spelling of the
   * internal id, the rows a run writes are invisible to the lookup: a store
   * where the lookup finds nothing still finds nothing afterwards, so the
   * same run repeats with the same writes.
   */
  lemma AsWrittenRunRepeats(commits: seq<Row>, source: RecommendSource, content: Content, today: Date)
    requires source.sourceId != DecimalText(source.id)
    requires !WinRateExists(commits, content.sDate, source.sourceId)
    ensures var e := RunEffect(commits, source, content, today);
      RunEffect(commits + e.written, source, content, today) == e
  {
    var e := RunEffect(commits, source, content, today);
    var after := commits + e.written;
    if e.outcome == Persisted {
      StockRowsAt(source.id, content.sDate, content.vtIntelliStock);
      forall i | 0 <= i < |after| && after[i].WinRateCommit? && after[i].winRate.recommendDate == content.sDate
        ensures !ColumnMatchesText(after[i].winRate.recommendSourceId, source.sourceId)
      {
        if i >= |commits| {
          assert i == |commits|;
        }
      }
    }
  }

  /**
   * The input that shows the lookup mismatch: a source whose internal id is 7
   * and whose external id is "123". Both runs of the same same-day report
   * persist, so the store holds two win-rate rows for one (source, date).
   */
  lemma AsWrittenDuplicatesWinRate(today: Date)
    ensures var source := RecommendSource(7, "Strategy", "123");
      var content := Content(today, [1.2, 3.4, 2.1], [55.0, 60.0, 58.0], [StockEntry("Foo", "0101600001")]);
      var first := RunEffect([], source, content, today);
      var second := RunEffect(first.written, source, content, today);
      && first.outcome == Persisted && second.outcome == Persisted
      && (first.written + second.written)[0] == (first.written + second.written)[2]
      && (first.written + second.written)[0].WinRateCommit?
  {
    var source := RecommendSource(7, "Strategy", "123");
    var content := Content(today, [1.2, 3.4, 2.1], [55.0, 60.0, 58.0], [StockEntry("Foo", "0101600001")]);
    ScenarioSingleStock(today);
    assert DecimalText(7) == "7";
    AsWrittenRunRepeats([], source, content, today);
  }

  /**
   * As written, another source's row can block this one: once a source whose
   * internal id is spelt by this source's external id has persisted a report,
   * this source's run on a report of the same date writes nothing.
   */
  lemma OtherSourceRowBlocks(commits: seq<Row>, other: RecommendSource, otherContent: Content,
                             source: RecommendSource, content: Content, today: Date)
    requires source.sourceId == DecimalText(other.id)
    requires RunEffect(commits, other, otherContent, today).outcome == Persisted
    requires content.sDate == otherContent.sDate
    ensures RunEffect(commits + RunEffect(commits, other, otherContent, today).written, source, content, today)
         == Effect(Skipped, [])
  {
    var after := commits + RunEffect(commits, other, otherContent, today).written;
    var row := DeriveWinRate(other.id, otherContent.sDate, otherContent.vtAvgIncrease, otherContent.vtSuccPercent).value;
    assert after[|commits|] == WinRateCommit(row);
    assert WinRateExists(after, content.sDate, source.sourceId);
  }

  /** The blocking on concrete ids: a source with id 123 writes first; a source with id 7 and external id "123" then skips. */
  lemma OtherSourceBlocksExample(today: Date)
    ensures var other := RecommendSource(123, "Other", "abc");
      var source := RecommendSource(7, "Strategy", "123");
      var content := Content(today, [1.2, 3.4, 2.1], [55.0, 60.0, 58.0], [StockEntry("Foo", "0101600001")]);
      var first := RunEffect([], other, content, today);
      && first.outcome == Persisted
      && RunEffect([], source, content, today).outcome == Persisted
      && RunEffect(first.written, source, content, today) == Effect(Skipped, [])
  {
    var other := RecommendSource(123, "Other", "abc");
    var source := RecommendSource(7, "Strategy", "123");
    var content := Content(today, [1.2, 3.4, 2.1], [55.0, 60.0, 58.0], [StockEntry("Foo", "0101600001")]);
    ScenarioSingleStock(today);
    assert RunEffect([], other, content, today).outcome == Persisted;
    assert DecimalText(123) == "123";
    OtherSourceRowBlocks([], other, content, source, content, today);
  }

  /** The lookup the rows' own key supports: a win-rate row dated `date` with the INTERNAL id. */
  predicate WinRateExistsById(commits: seq<Row>, date: Date, id: nat)
  {
    exists i :: 0 <= i < |commits| && commits[i].WinRateCommit? &&
      commits[i].winRate.recommendDate == date && commits[i].winRate.recommendSourceId == id
  }

  /** The corrected gate: look up by `r_source_model.id`, the key the rows are written with. */
  predicate ShouldPersistById(commits: seq<Row>, source: RecommendSource, rDate: Date, today: Date)
  {
    rDate == today && !WinRateExistsById(commits, rDate, source.id)
  }

  /** `run` with the corrected gate; the writes after the gate are unchanged. */
  function RunEffectById(commits: seq<Row>, source: RecommendSource, content: Content, today: Date): Effect
  {
    if ShouldPersistById(commits, source, content.sDate, today) then Persist(source, content)
    else Effect(Skipped, [])
  }

  /**
   * With the corrected gate, whatever the two ids are, a second run on a
   * report of the same date writes nothing: at most one win-rate row per
   * (source, date) is ever written by repeated runs.
   */
  lemma RunByIdNeverRepeats(commits: seq<Row>, source: RecommendSource, first: Content, second: Content, today: Date)
    requires RunEffectById(commits, source, first, today).outcome == Persisted
    requires second.sDate == first.sDate
    ensures RunEffectById(commits + RunEffectById(commits, source, first, today).written, source, second, today)
         == Effect(Skipped, [])
  {
    var after := commits + RunEffectById(commits, source, first, today).written;
    var row := DeriveWinRate(source.id, first.sDate, first.vtAvgIncrease, first.vtSuccPercent).value;
    assert after[|commits|] == WinRateCommit(row);
    assert WinRateExistsById(after, second.sDate, source.id);
  }

  /** A decimal spelling is never empty, and has two or more digits from 10 on. */
  lemma DecimalTextLength(n: nat)
    ensures |DecimalText(n)| >= 1
    ensures n >= 10 ==> |DecimalText(n)| >= 2
  {
  }

  /** Distinct integers have distinct decimal spellings. */
  lemma {:induction false} DecimalTextInjective(a: nat, b: nat)
    requires DecimalText(a) == DecimalText(b)
    ensures a == b
    decreases a
  {
    if a < 10 && b < 10 {
      assert Digit(a) as int == 48 + a && Digit(b) as int == 48 + b;
    } else if a >= 10 && b >= 10 {
      var ta, tb := DecimalText(a), DecimalText(b);
      assert ta[..|ta| - 1] == DecimalText(a / 10);
      assert tb[..|tb| - 1] == DecimalText(b / 10);
      assert Digit(a % 10) as int == 48 + a % 10 && Digit(b % 10) as int == 48 + b % 10;
      DecimalTextInjective(a / 10, b / 10);
    } else {
      DecimalTextLength(a);
      DecimalTextLength(b);
    }
  }

  /**
   * When the external id is the decimal spelling of the internal id, the
   * as-written gate and the corrected gate decide alike, so `run` as written
   * behaves exactly like the corrected `run`.
   */
  lemma GatesAgreeWhenIdsCoincide(commits: seq<Row>, source: RecommendSource, content: Content, today: Date)
    requires source.sourceId == DecimalText(source.id)
    ensures WinRateExists(commits, content.sDate, source.sourceId) == WinRateExistsById(commits, content.sDate, source.id)
    ensures RunEffect(commits, source, content, today) == RunEffectById(commits, source, content, today)
  {
    if WinRateExists(commits, content.sDate, source.sourceId) {
      var i :| 0 <= i < |commits| && commits[i].WinRateCommit? && commits[i].winRate.recommendDate == content.sDate &&
        ColumnMatchesText(commits[i].winRate.recommendSourceId, source.sourceId);
      DecimalTextInjective(commits[i].winRate.recommendSourceId, source.id);
    }
  }

  /** The end-to-end scenario of one source with fresh same-day data and an empty store. */
  lemma ScenarioSingleStock(today: Date)
    ensures var source := RecommendSource(7, "Strategy", "123");
      var content := Content(today, [1.2, 3.4, 2.1], [55.0, 60.0, 58.0], [StockEntry("Foo", "0101600001")]);
      RunEffect([], source, content, today)
        == Effect(Persisted, [WinRateCommit(WinRateRow(7, today, [1.2, 3.4, 2.1], 3.4, 2, [55.0, 60.0, 58.0], 60.0)),
                              StockCommit(StockRow(7, today, "Foo", "600001"))])
  {
    var s: seq<real> := [1.2, 3.4, 2.1];
    KeepDayIsFirstPeakPosition(s, 3.4, 2);
    var t: seq<real> := [55.0, 60.0, 58.0];
    assert IsPeak(t, 60.0);
    PeakUnique(t, 60.0, Max(t).value);
    var code := "0101600001";
    assert code == "0101" + "600001";
    assert code[4..] == "600001";
    var entries := [StockEntry("Foo", code)];
    assert entries[..0] == [];
    assert StockRows(7, today, entries) == [StockCommit(StockRow(7, today, "Foo", "600001"))];
  }

  /**
   * The slice `[4:]` keeps the six digits of a code with a 4-character
   * market prefix, cuts into a code with a 2-character one, and turns a
   * code of at most 4 characters into the empty string.
   */
  lemma StripPrefixExamples()
    ensures StripPrefix("0101600000") == "600000"
    ensures StripPrefix("SH600000") == "0000"
    ensures StripPrefix("SZ00") == "" && StripPrefix("") == ""
  {
    assert "0101600000" == "0101" + "600000";
    assert "SH600000" == "SH60" + "0000";
  }

  /** The database: every row committed so far, in commit order. */
  class Store {
    var commits: seq<Row>

    constructor (commits: seq<Row>)
      ensures this.commits == commits
    {
      this.commits := commits;
    }

    /** `Model.create(...)`: adds one row and commits it. */
    method Create(row: Row)
      modifies this
      ensures commits == old(commits) + [row]
    {
      commits := commits + [row];
    }
  }

  /** The loop of `run` over `vtIntelliStock`: one `StockRecommended.create` per entry, in order. */
  method CreateStocks(store: Store, recommendSourceId: nat, recommendDate: Date, entries: seq<StockEntry>)
    modifies store
    ensures store.commits == old(store.commits) + StockRows(recommendSourceId, recommendDate, entries)
  {
    for k := 0 to |entries|
      invariant store.commits == old(store.commits) + StockRows(recommendSourceId, recommendDate, entries[..k])
    {
      StockRowsStep(recommendSourceId, recommendDate, entries, k);
      store.Create(StockCommit(StockRowOf(recommendSourceId, recommendDate, entries[k])));
    }
    assert entries[..|entries|] == entries;
  }

  /** The crawler for one recommendation source. */
  class RecommendSourceCrawler {
    const rSourceModel: RecommendSource

    constructor (rSourceModel: RecommendSource)
      ensures this.rSourceModel == rSourceModel
    {
      this.rSourceModel := rSourceModel;
    }

    /**
     * `run` on already-fetched `content`: returns early when the report is
     * not today's or the lookup finds a row; otherwise commits the win-rate
     * row and then one stock row per entry. Earlier rows are never touched.
     */
    method Run(store: Store, content: Content, today: Date) returns (outcome: RunOutcome)
      modifies store
      ensures outcome == RunEffect(old(store.commits), rSourceModel, content, today).outcome
      ensures store.commits == old(store.commits) + RunEffect(old(store.commits), rSourceModel, content, today).written
    {
      ghost var before := store.commits;
      ghost var effect := RunEffect(before, rSourceModel, content, today);
      var rDate := content.sDate;
      var winRateExist := WinRateExists(store.commits, rDate, rSourceModel.sourceId);
      if rDate != today || winRateExist {
        assert effect == Effect(Skipped, []);
        return Skipped;
      }
      assert effect == Persist(rSourceModel, content);
      var created := WinRateDaily.New(content.vtAvgIncrease, content.vtSuccPercent, rSourceModel.id, rDate);
      if created.Failure? {
        return Failed(created.error);
      }
      var row := created.value.ToRow();
      assert effect == Effect(Persisted, [WinRateCommit(row)] + StockRows(rSourceModel.id, rDate, content.vtIntelliStock));
      store.Create(WinRateCommit(row));
      CreateStocks(store, rSourceModel.id, rDate, content.vtIntelliStock);
      outcome := Persisted;
    }
  }
}
