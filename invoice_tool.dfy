/**
 * `invoice_tool.py`: the interactive renamer. The user picks one of four
 * preset templates, then every PDF of the folder is read, given a cleaned
 * name from the template, moved to a free name, and counted as a
 * success, a failure or a skip.
 */
module InvoiceTool {
  import opened Wrappers
  import opened Text
  import opened Patterns
  import opened Extraction
  import opened Templates
  import opened Naming
  import RenameInvoices

  /** The menu keys of the preset formats. */
  const PresetKeys: set<string> := {"1", "2", "3", "4"}

  /** The template of a menu key: None when the key is not on the menu. */
  function PresetFormat(choice: string): (r: Option<Template>)
    ensures r.Some? <==> choice in PresetKeys
  {
    if choice == "1" then Some([Slot("date"), Lit("_"), Slot("seller"), Lit("_"), Slot("amount")])
    else if choice == "2" then Some([Slot("seller"), Lit("_"), Slot("date"), Lit("_"), Slot("amount")])
    else if choice == "3" then Some([Slot("code"), Lit("_"), Slot("number")])
    else if choice == "4" then Some([Slot("amount"), Lit("_"), Slot("seller")])
    else None
  }

  /** Slots of a template whose every placeholder names a field key, one token at a time. */
  lemma {:induction false} SlotsWithin(t: Template)
    requires forall k :: 0 <= k < |t| && t[k].Slot? ==> t[k].key in FieldKeys
    ensures Slots(t) <= FieldKeys
  {
    if t != [] {
      assert forall k :: 0 <= k < |t[1..]| && t[1..][k].Slot? ==> t[1..][k].key in FieldKeys by {
        forall k | 0 <= k < |t[1..]| ensures t[1..][k] == t[k + 1] {}
      }
      SlotsWithin(t[1..]);
    }
  }

  /**
   * Every preset names only keys the extractor fills, so `format(**info)`
   * never raises, and its only literal, the underscore, is no reserved
   * character.
   */
  lemma PresetsAreSafe(choice: string)
    requires choice in PresetKeys
    ensures Slots(PresetFormat(choice).value) <= FieldKeys
    ensures LiteralsAvoid(PresetFormat(choice).value, Reserved)
  {
    var t := PresetFormat(choice).value;
    assert NoneOf("_", Reserved);
    forall k | 0 <= k < |t| && t[k].Lit? ensures NoneOf(t[k].text, Reserved) {
      assert t[k] == Lit("_");
    }
    SlotsWithin(t);
  }

  /** The first preset is the template of `rename_invoices.py`. */
  lemma FirstPresetIsNamingFormat()
    ensures PresetFormat("1") == Some(RenameInvoices.NamingFormat)
  {
  }

  /** What each preset renders an invoice to, before cleaning. */
  lemma PresetsRender(inv: Invoice)
    ensures Render(PresetFormat("1").value, Dict(inv)) == Some(inv.date + "_" + inv.seller + "_" + inv.amount)
    ensures Render(PresetFormat("2").value, Dict(inv)) == Some(inv.seller + "_" + inv.date + "_" + inv.amount)
    ensures Render(PresetFormat("3").value, Dict(inv)) == Some(inv.code + "_" + inv.number)
    ensures Render(PresetFormat("4").value, Dict(inv)) == Some(inv.amount + "_" + inv.seller)
  {
    assert PresetFormat("3").value == [Slot("code"), Lit("_"), Slot("number")];
    assert PresetFormat("4").value == [Slot("amount"), Lit("_"), Slot("seller")];
    var f := Dict(inv);
    RenderTriple("date", "seller", "amount", f);
    RenderTriple("seller", "date", "amount", f);
    RenderPair("code", "number", f);
    RenderPair("amount", "seller", f);
  }

  /** `clean_filename`: reserved characters removed, then surrounding whitespace stripped. */
  function CleanFilename(s: string): (r: string)
    ensures NoneOf(r, Reserved)
    ensures Trimmed(RemoveReserved(s), r)
    ensures r == [] || (!IsSpace(r[0]) && !IsSpace(r[|r| - 1]))
    ensures |r| <= |s|
  {
    Strip(RemoveReserved(s))
  }

  /** Cleaning a cleaned name changes nothing. */
  lemma CleanFilenameIdempotent(s: string)
    ensures CleanFilename(CleanFilename(s)) == CleanFilename(s)
  {
    var c := CleanFilename(s);
    RemoveReservedIdempotent(c);
    StripIdentity(c);
  }

  /** A name is left alone exactly when it has no reserved character and no surrounding whitespace. */
  lemma CleanFilenameIdentity(s: string)
    ensures CleanFilename(s) == s <==>
      NoneOf(s, Reserved) && (s == [] || (!IsSpace(s[0]) && !IsSpace(s[|s| - 1])))
  {
    RemoveReservedIdempotent(s);
    if NoneOf(s, Reserved) {
      StripIdentity(s);
    }
  }

  /**
   * The invoice read from non-empty page text: the four shared rules, then
   * the second name as seller, or the only one; the buyer is never set.
   */
  function InvoiceOf(t: string): (inv: Invoice)
    ensures inv.buyer == DefaultBuyer
    ensures |Names(t)| >= 2 ==> inv.seller == Names(t)[1]
    ensures |Names(t)| == 1 ==> inv.seller == Names(t)[0]
    ensures Names(t) == [] ==> inv.seller == DefaultSeller
  {
    var names := Names(t);
    Invoice(
      CodeOf(t), NumberOf(t), DateOf(t), AmountOf(t),
      if |names| >= 2 then names[1] else if |names| == 1 then names[0] else DefaultSeller,
      DefaultBuyer)
  }

  /** The two scripts read the same invoice, except that this one never fills in the buyer. */
  lemma SameFieldsAsRenameInvoices(t: string)
    ensures InvoiceOf(t) == RenameInvoices.InvoiceOf(t).(buyer := DefaultBuyer)
  {
  }

  /** `extract_invoice_data` on the first page's text; None when it is missing or empty. */
  function Extract(text: Option<string>): (r: Option<Invoice>)
    ensures r.None? <==> text.None? || text.value == []
    ensures r.Some? ==> r.value == InvoiceOf(text.value)
  {
    if text.None? || text.value == [] then None else Some(InvoiceOf(text.value))
  }

  /** `extract_invoice_data` as written: the dictionary starts at the defaults and each matching rule overwrites its key. */
  method ExtractInvoiceData(text: Option<string>) returns (info: Option<Invoice>)
    ensures info == Extract(text)
  {
    var data := DefaultInvoice;
    if text.None? || text.value == [] {
      return None;
    }
    var t := text.value;
    var code := Capture(Code, t);
    if code.Some? {
      data := data.(code := code.value);
    }
    var number := Capture(Number, t);
    if number.Some? {
      data := data.(number := number.value);
    }
    var date := Search(Date, t);
    if date.Some? {
      data := data.(date := DateValue(date.value.groups));
    }
    var amount := Capture(Small, t);
    if amount.None? {
      amount := Capture(Total, t);
    }
    if amount.Some? {
      data := data.(amount := amount.value);
    }
    var names := Names(t);
    if |names| >= 2 {
      data := data.(seller := names[1]);
    } else if |names| == 1 {
      data := data.(seller := names[0]);
    }
    info := Some(data);
  }

  /**
   * The format menu: the first answer that is a menu key once stripped.
   * None when the answers run out first, where `input` raises EOFError;
   * `asked` is how many answers were read.
   */
  method ChooseFormat(answers: seq<string>) returns (chosen: Option<string>, asked: nat)
    ensures asked <= |answers|
    ensures forall k :: 0 <= k < asked - 1 ==> Strip(answers[k]) !in PresetKeys
    ensures chosen.Some? ==>
      asked >= 1 && chosen.value == Strip(answers[asked - 1]) && chosen.value in PresetKeys
    ensures chosen.None? ==> asked == |answers| && forall k :: 0 <= k < |answers| ==> Strip(answers[k]) !in PresetKeys
  {
    asked := 0;
    while asked < |answers|
      invariant asked <= |answers|
      invariant forall k :: 0 <= k < asked ==> Strip(answers[k]) !in PresetKeys
    {
      var choice := Strip(answers[asked]);
      asked := asked + 1;
      if choice in PresetKeys {
        return Some(choice), asked;
      }
    }
    chosen := None;
  }

  /** What becomes of a readable file before the rename call. */
  datatype Plan = NoRename | MoveTo(target: string)

  /** `new_name_base`: the rendering of the template, cleaned. */
  function NameBase(fmt: Template, inv: Invoice): (base: string)
    requires Slots(fmt) <= FieldKeys
    ensures NoneOf(base, Reserved)
  {
    CleanFilename(Render(fmt, Dict(inv)).value)
  }

  /** A name `base.pdf` or `base_k.pdf` of a clean base is clean and ends in `.pdf`. */
  lemma PdfNameClean(base: string, name: string)
    requires NoneOf(base, Reserved)
    requires name == base + Extension || exists k: nat :: name == SuffixName(base, k)
    ensures NoneOf(name, Reserved)
    ensures |name| >= |Extension| && name[|name| - |Extension|..] == Extension
  {
    if name == base + Extension {
      assert NoneOf(Extension, Reserved);
      NoneOfConcat(base, Extension, Reserved);
    } else {
      var k: nat :| name == SuffixName(base, k);
      SuffixNameAvoids(base, k);
    }
    assert name == name[..|name| - |Extension|] + name[|name| - |Extension|..];
  }

  /**
   * The cleaned name `base.pdf`; no rename when that is the file's own
   * name; otherwise that name if free, or else `base_k.pdf` with the least
   * free `k`.
   */
  function Resolve(fmt: Template, inv: Invoice, file: string, dir: set<string>): (p: Plan)
    requires Slots(fmt) <= FieldKeys
    ensures p.NoRename? <==> NameBase(fmt, inv) + Extension == file
    ensures NameBase(fmt, inv) + Extension != file && NameBase(fmt, inv) + Extension !in dir ==>
      p == MoveTo(NameBase(fmt, inv) + Extension)
    ensures NameBase(fmt, inv) + Extension != file && NameBase(fmt, inv) + Extension in dir ==>
      p == MoveTo(SuffixName(NameBase(fmt, inv), FreeSuffix(NameBase(fmt, inv), dir)))
    ensures p.MoveTo? ==> p.target !in dir && NoneOf(p.target, Reserved)
    ensures p.MoveTo? ==> |p.target| >= |Extension| && p.target[|p.target| - |Extension|..] == Extension
  {
    var base := NameBase(fmt, inv);
    var candidate := base + Extension;
    if candidate == file then NoRename
    else if candidate in dir then
      var name := SuffixName(base, FreeSuffix(base, dir));
      PdfNameClean(base, name);
      MoveTo(name)
    else
      PdfNameClean(base, candidate);
      MoveTo(candidate)
  }

  /** What became of one file. */
  datatype Outcome =
    | Unreadable              // counted as a failure
    | Unchanged               // already named so: counted as skipped
    | Renamed(target: string) // counted as a success
    | RenameFailed(target: string) // counted as a failure

  /** The folder's names, the three counters, and one outcome per file handled so far. */
  datatype Tally = Tally(dir: set<string>, success: nat, fail: nat, skipped: nat, log: seq<Outcome>)

  /** What the loop does with one file, given what the extractor returns for it; `ok` is whether `rename` succeeds. */
  function Handle(fmt: Template, dir: set<string>, file: string, info: Option<Invoice>, ok: bool): (o: Outcome)
    requires Slots(fmt) <= FieldKeys
    ensures o == Unreadable <==> info.None?
    ensures o == Unchanged ==> info.Some? && NameBase(fmt, info.value) + Extension == file
    ensures info.Some? ==> (o == Unchanged <==> Resolve(fmt, info.value, file, dir).NoRename?)
    ensures o.Renamed? || o.RenameFailed? ==>
      && info.Some? && Resolve(fmt, info.value, file, dir) == MoveTo(o.target)
      && (o.Renamed? <==> ok)
      && o.target !in dir
      && NoneOf(o.target, Reserved)
  {
    match info
    case None => Unreadable
    case Some(inv) =>
      match Resolve(fmt, inv, file, dir)
      case NoRename => Unchanged
      case MoveTo(target) => if ok then Renamed(target) else RenameFailed(target)
  }

  /** One turn of `for idx, file_path in enumerate(files, 1)`: bump one counter and apply a successful rename. */
  function Step(fmt: Template, st: Tally, file: string, info: Option<Invoice>, ok: bool): Tally
    requires Slots(fmt) <= FieldKeys
  {
    Record(st, file, Handle(fmt, st.dir, file, info, ok))
  }

  /** The counter an outcome bumps, and the folder after it. */
  function Record(st: Tally, file: string, o: Outcome): (r: Tally)
    ensures r.log == st.log + [o]
    ensures r.dir == if o.Renamed? then st.dir - {file} + {o.target} else st.dir
  {
    match o
    case Unreadable => st.(fail := st.fail + 1, log := st.log + [o])
    case Unchanged => st.(skipped := st.skipped + 1, log := st.log + [o])
    case Renamed(target) => st.(dir := st.dir - {file} + {target}, success := st.success + 1, log := st.log + [o])
    case RenameFailed(_) => st.(fail := st.fail + 1, log := st.log + [o])
  }

  /** The state after the first `n` files of the listing, given what the extractor returns for each. */
  function RunUpTo(fmt: Template, dir0: set<string>, files: seq<string>, infos: seq<Option<Invoice>>,
                   oks: seq<bool>, n: nat): Tally
    requires Slots(fmt) <= FieldKeys
    requires n <= |files| && |infos| == |files| && |oks| == |files|
  {
    if n == 0 then Tally(dir0, 0, 0, 0, [])
    else Step(fmt, RunUpTo(fmt, dir0, files, infos, oks, n - 1), files[n - 1], infos[n - 1], oks[n - 1])
  }

  /** How many outcomes of the log are successes, failures and skips, counted independently of the loop. */
  function Counts(log: seq<Outcome>): (c: (nat, nat, nat))
    ensures c.0 + c.1 + c.2 == |log|
  {
    if log == [] then (0, 0, 0)
    else
      var c := Counts(log[..|log| - 1]);
      match log[|log| - 1]
      case Renamed(_) => (c.0 + 1, c.1, c.2)
      case Unchanged => (c.0, c.1, c.2 + 1)
      case _ => (c.0, c.1 + 1, c.2)
  }

  /** Recording one outcome keeps the counters equal to the counts of the log. */
  lemma RecordCounts(st: Tally, file: string, o: Outcome)
    requires (st.success, st.fail, st.skipped) == Counts(st.log)
    ensures var r := Record(st, file, o); (r.success, r.fail, r.skipped) == Counts(r.log)
  {
    var r := Record(st, file, o);
    assert r.log[..|r.log| - 1] == st.log;
  }

  /**
   * The counters printed at the end agree with the outcomes: every file is
   * counted exactly once, as a success, a failure or a skip.
   */
  lemma {:induction false} CountersMatchLog(fmt: Template, dir0: set<string>, files: seq<string>,
                                            infos: seq<Option<Invoice>>, oks: seq<bool>, n: nat)
    requires Slots(fmt) <= FieldKeys
    requires n <= |files| && |infos| == |files| && |oks| == |files|
    ensures var r := RunUpTo(fmt, dir0, files, infos, oks, n);
      && |r.log| == n
      && (r.success, r.fail, r.skipped) == Counts(r.log)
      && r.success + r.fail + r.skipped == n
  {
    if n > 0 {
      CountersMatchLog(fmt, dir0, files, infos, oks, n - 1);
      var st := RunUpTo(fmt, dir0, files, infos, oks, n - 1);
      var o := Handle(fmt, st.dir, files[n - 1], infos[n - 1], oks[n - 1]);
      RecordCounts(st, files[n - 1], o);
      var r := RunUpTo(fmt, dir0, files, infos, oks, n);
      assert |r.log| == |st.log| + 1;
    }
  }

  /**
   * Over the batch the folder keeps its size and every file not yet
   * reached is still there under its old name.
   */
  lemma {:induction false} RunKeepsFiles(fmt: Template, dir0: set<string>, files: seq<string>,
                                         infos: seq<Option<Invoice>>, oks: seq<bool>, n: nat)
    requires Slots(fmt) <= FieldKeys
    requires n <= |files| && |infos| == |files| && |oks| == |files|
    requires Listing(dir0, files)
    ensures |RunUpTo(fmt, dir0, files, infos, oks, n).dir| == |dir0|
    ensures forall j :: n <= j < |files| ==> files[j] in RunUpTo(fmt, dir0, files, infos, oks, n).dir
  {
    if n > 0 {
      RunKeepsFiles(fmt, dir0, files, infos, oks, n - 1);
      var st := RunUpTo(fmt, dir0, files, infos, oks, n - 1);
      var others := files[n..];
      assert forall j :: 0 <= j < |others| ==> others[j] == files[n + j];
      StepKeepsFiles(fmt, st, files[n - 1], infos[n - 1], oks[n - 1], others);
      assert forall j :: n <= j < |files| ==> files[j] == others[j - n];
    }
  }

  /** One file's turn keeps the folder's size and every other listed file. */
  lemma StepKeepsFiles(fmt: Template, st: Tally, file: string, info: Option<Invoice>, ok: bool, others: seq<string>)
    requires Slots(fmt) <= FieldKeys
    requires file in st.dir
    requires forall j :: 0 <= j < |others| ==> others[j] in st.dir && others[j] != file
    ensures |Step(fmt, st, file, info, ok).dir| == |st.dir|
    ensures forall j :: 0 <= j < |others| ==> others[j] in Step(fmt, st, file, info, ok).dir
  {
    var o := Handle(fmt, st.dir, file, info, ok);
    if o.Renamed? {
      MoveKeeps(st.dir, file, o.target, others);
    }
  }

  /** Every rename target in the outcomes is free of reserved characters. */
  predicate TargetsClean(log: seq<Outcome>) {
    forall k :: 0 <= k < |log| && log[k].Renamed? ==> NoneOf(log[k].target, Reserved)
  }

  /** Every file the batch renamed went to a name without reserved characters. */
  lemma {:induction false} RunTargetsClean(fmt: Template, dir0: set<string>, files: seq<string>,
                                           infos: seq<Option<Invoice>>, oks: seq<bool>, n: nat)
    requires Slots(fmt) <= FieldKeys
    requires n <= |files| && |infos| == |files| && |oks| == |files|
    ensures TargetsClean(RunUpTo(fmt, dir0, files, infos, oks, n).log)
  {
    if n > 0 {
      RunTargetsClean(fmt, dir0, files, infos, oks, n - 1);
      var st := RunUpTo(fmt, dir0, files, infos, oks, n - 1);
      var o := Handle(fmt, st.dir, files[n - 1], infos[n - 1], oks[n - 1]);
      var log := RunUpTo(fmt, dir0, files, infos, oks, n).log;
      assert log == st.log + [o];
      forall k | 0 <= k < |log| && log[k].Renamed? ensures NoneOf(log[k].target, Reserved) {
        if k < |st.log| {
          assert log[k] == st.log[k];
        }
      }
    }
  }

  /** Lines 142-159: render, clean, and on a collision look for a free suffix. */
  method ResolveName(fmt: Template, inv: Invoice, file: string, dir: set<string>) returns (plan: Plan)
    requires Slots(fmt) <= FieldKeys
    ensures plan == Resolve(fmt, inv, file, dir)
  {
    var base := CleanFilename(Render(fmt, Dict(inv)).value);
    var name := base + Extension;
    assert base == NameBase(fmt, inv);
    if name == file {
      return NoRename;
    }
    if name in dir {
      name := NextFreeName(name, base, dir);
    }
    plan := MoveTo(name);
  }

  /** Lines 137-167 for a file whose text was read and parsed into `info`, up to the rename call. */
  method Judge(fmt: Template, dir: set<string>, file: string, info: Option<Invoice>, ok: bool)
    returns (outcome: Outcome)
    requires Slots(fmt) <= FieldKeys
    ensures outcome == Handle(fmt, dir, file, info, ok)
  {
    if info.None? {
      return Unreadable;
    }
    var plan := ResolveName(fmt, info.value, file, dir);
    if plan.NoRename? {
      return Unchanged;
    }
    outcome := if ok then Renamed(plan.target) else RenameFailed(plan.target);
  }

  /** The body of the loop for one file: extraction, then the naming and the rename call. */
  method HandleFile(fmt: Template, dir: set<string>, file: string, text: Option<string>, ok: bool)
    returns (outcome: Outcome)
    requires Slots(fmt) <= FieldKeys
    ensures outcome == Handle(fmt, dir, file, Extract(text), ok)
  {
    var info := ExtractInvoiceData(text);
    outcome := Judge(fmt, dir, file, info, ok);
  }

  /** What the extractor returns for each text of the listing. */
  function Extracted(texts: seq<Option<string>>): seq<Option<Invoice>> {
    seq(|texts|, i requires 0 <= i < |texts| => Extract(texts[i]))
  }

  /** Lines 137-167 after the outcome is known: bump its counter and, for a rename, move the file. */
  method Count(st: Tally, file: string, outcome: Outcome) returns (next: Tally)
    ensures next == Record(st, file, outcome)
  {
    next := st.(log := st.log + [outcome]);
    match outcome {
      case Unreadable =>
        next := next.(fail := st.fail + 1);
      case Unchanged =>
        next := next.(skipped := st.skipped + 1);
      case Renamed(target) =>
        next := next.(dir := st.dir - {file} + {target}, success := st.success + 1);
      case RenameFailed(_) =>
        next := next.(fail := st.fail + 1);
    }
  }

  /**
   * The renaming loop of `main` with the chosen template. `texts[i]` is
   * what the reader gives for `files[i]` (None for an exception or an
   * empty page) and `oks[i]` whether renaming it succeeds.
   */
  method RenameAll(fmt: Template, dir0: set<string>, files: seq<string>, texts: seq<Option<string>>,
                   oks: seq<bool>) returns (tally: Tally)
    requires Slots(fmt) <= FieldKeys
    requires |texts| == |files| && |oks| == |files|
    ensures tally == RunUpTo(fmt, dir0, files, Extracted(texts), oks, |files|)
  {
    ghost var infos := Extracted(texts);
    tally := Tally(dir0, 0, 0, 0, []);
    for i := 0 to |files|
      invariant tally == RunUpTo(fmt, dir0, files, infos, oks, i)
    {
      var outcome := HandleFile(fmt, tally.dir, files[i], texts[i], oks[i]);
      assert infos[i] == Extract(texts[i]);
      tally := Count(tally, files[i], outcome);
    }
  }

  /** The batch as it runs with the preset of menu key `choice`. */
  function PresetRun(choice: string, dir0: set<string>, files: seq<string>, texts: seq<Option<string>>,
                     oks: seq<bool>): Tally
    requires choice in PresetKeys && |texts| == |files| && |oks| == |files|
  {
    PresetsAreSafe(choice);
    RunUpTo(PresetFormat(choice).value, dir0, files, Extracted(texts), oks, |files|)
  }

  /**
   * `main` after the folder prompt: the format menu, the Enter prompt that
   * confirms it, then the loop with the chosen preset. None when the
   * answers run out at the menu or at the confirmation (`EOFError`).
   */
  method Session(answers: seq<string>, dir0: set<string>, files: seq<string>, texts: seq<Option<string>>,
                 oks: seq<bool>) returns (result: Option<Tally>)
    requires |texts| == |files| && |oks| == |files|
    ensures result.None? <==> forall k :: 0 <= k < |answers| - 1 ==> Strip(answers[k]) !in PresetKeys
    ensures result.Some? ==> exists k :: (
      && 0 <= k < |answers| - 1 && Strip(answers[k]) in PresetKeys
      && (forall j :: 0 <= j < k ==> Strip(answers[j]) !in PresetKeys)
      && result.value == PresetRun(Strip(answers[k]), dir0, files, texts, oks))
  {
    var chosen, asked := ChooseFormat(answers);
    if chosen.None? || asked == |answers| {
      return None;
    }
    PresetsAreSafe(chosen.value);
    var tally := RenameAll(PresetFormat(chosen.value).value, dir0, files, texts, oks);
    result := Some(tally);
    assert Strip(answers[asked - 1]) in PresetKeys;
  }
}
