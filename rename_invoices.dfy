/**
 * `rename_invoices.py`: the `InvoiceRenamer` class. Its folder and naming
 * format never change after construction, so the class becomes this
 * module and the format a parameter; the folder's contents are a set of
 * names that the batch loop updates after each successful rename.
 */
module RenameInvoices {
  import opened Wrappers
  import opened Text
  import opened Patterns
  import opened Extraction
  import opened Templates
  import opened Naming

  /** Files whose stem contains this marker are passed over. */
  const UnknownPrefix: string := "解析失败_"

  /** The script's configured template, `{date}_{seller}_{amount}`. */
  const NamingFormat: Template := [Slot("date"), Lit("_"), Slot("seller"), Lit("_"), Slot("amount")]

  /** The space and the no-break space that `clean_text` removes. */
  const Blanks: set<char> := {' ', '\U{a0}'}

  /** `clean_text`: the text without its spaces and no-break spaces; "" for no text. */
  function CleanText(text: Option<string>): (r: string)
    ensures NoneOf(r, Blanks)
    ensures text.Some? ==> r == Without(text.value, Blanks)
  {
    if text.None? || text.value == [] then []
    else
      WithoutTwice(text.value, {' '}, {'\U{a0}'});
      assert {' '} + {'\U{a0}'} == Blanks;
      Without(Without(text.value, {' '}), {'\U{a0}'})
  }

  /** Cleaning cleaned text changes nothing. */
  lemma CleanTextIdempotent(text: Option<string>)
    ensures CleanText(Some(CleanText(text))) == CleanText(text)
  {
    WithoutIdentity(CleanText(text), Blanks);
  }

  /**
   * The invoice read from non-empty page text: the four shared rules, then
   * the names, the first of two or more being the buyer and the second the
   * seller, a lone name being the seller.
   */
  function InvoiceOf(t: string): (inv: Invoice)
    ensures WellFormed(inv)
  {
    var names := Names(t);
    Invoice(
      CodeOf(t), NumberOf(t), DateOf(t), AmountOf(t),
      if |names| >= 2 then names[1] else if |names| == 1 then names[0] else DefaultSeller,
      if |names| >= 2 then names[0] else DefaultBuyer)
  }

  /**
   * Code, number and date are the leftmost match's capture, or fall back
   * exactly when their pattern finds nothing; the amount is the capture of
   * the small-amount pattern, else of the total pattern, else the fallback.
   */
  lemma InvoiceOfSearches(t: string)
    ensures InvoiceOf(t).code == DefaultCode <==> Search(Code, t).None?
    ensures Search(Code, t).Some? ==> InvoiceOf(t).code == Search(Code, t).value.groups[0]
    ensures InvoiceOf(t).number == DefaultNumber <==> Search(Number, t).None?
    ensures Search(Number, t).Some? ==> InvoiceOf(t).number == Search(Number, t).value.groups[0]
    ensures InvoiceOf(t).date == DefaultDate <==> Search(Date, t).None?
    ensures Search(Date, t).Some? ==> InvoiceOf(t).date == DateValue(Search(Date, t).value.groups)
    ensures Search(Small, t).Some? ==> InvoiceOf(t).amount == Search(Small, t).value.groups[0]
    ensures Search(Small, t).None? && Search(Total, t).Some? ==> InvoiceOf(t).amount == Search(Total, t).value.groups[0]
    ensures Search(Small, t).None? && Search(Total, t).None? ==> InvoiceOf(t).amount == DefaultAmount
  {
    var inv := InvoiceOf(t);
    assert inv.code == CodeOf(t) && inv.number == NumberOf(t);
    assert inv.date == DateOf(t) && inv.amount == AmountOf(t);
  }

  /** Of two or more names the first is the buyer and the second the seller; a lone name is the seller. */
  lemma InvoiceOfNames(t: string)
    ensures |Names(t)| >= 2 ==> InvoiceOf(t).buyer == Names(t)[0] && InvoiceOf(t).seller == Names(t)[1]
    ensures |Names(t)| == 1 ==> InvoiceOf(t).seller == Names(t)[0] && InvoiceOf(t).buyer == DefaultBuyer
    ensures Names(t) == [] ==> InvoiceOf(t).seller == DefaultSeller && InvoiceOf(t).buyer == DefaultBuyer
  {
  }

  /** `extract_invoice_data` on the first page's text; None when it is missing or empty. */
  function Extract(text: Option<string>): (r: Option<Invoice>)
    ensures r.None? <==> text.None? || text.value == []
    ensures r.Some? ==> r.value == InvoiceOf(text.value)
  {
    if text.None? || text.value == [] then None else Some(InvoiceOf(text.value))
  }

  /** `extract_invoice_data` as written: the dictionary starts at the defaults and each matching rule overwrites its key. */
  method ExtractInvoiceData(text: Option<string>) returns (info: Option<Invoice>)
    ensures info == Extract(text)
  {
    var data := DefaultInvoice;
    if text.None? || text.value == [] {
      return None;
    }
    var t := text.value;
    var code := Capture(Code, t);
    if code.Some? {
      data := data.(code := code.value);
    }
    var number := Capture(Number, t);
    if number.Some? {
      data := data.(number := number.value);
    }
    var date := Search(Date, t);
    if date.Some? {
      data := data.(date := DateValue(date.value.groups));
    }
    var amount := Capture(Small, t);
    if amount.None? {
      amount := Capture(Total, t);
    }
    if amount.Some? {
      data := data.(amount := amount.value);
    }
    var names := Names(t);
    if |names| >= 2 {
      data := data.(buyer := names[0]);
      data := data.(seller := names[1]);
    } else if |names| == 1 {
      data := data.(seller := names[0]);
    }
    info := Some(data);
  }

  /** The fallback values hold no reserved file-name character. */
  lemma DefaultsAvoidReserved()
    ensures NoneOf(DefaultCode, Reserved) && NoneOf(DefaultNumber, Reserved) && NoneOf(DefaultDate, Reserved)
    ensures NoneOf(DefaultAmount, Reserved) && NoneOf(DefaultSeller, Reserved) && NoneOf(DefaultBuyer, Reserved)
  {
  }

  /** No value of a well-formed invoice holds a reserved file-name character, so sanitising never alters the values. */
  lemma WellFormedAvoidsReserved(inv: Invoice)
    requires WellFormed(inv)
    ensures ValuesAvoid(Dict(inv), Reserved)
  {
    DefaultsAvoidReserved();
    ClassAvoidsReserved(inv.amount, AmountChar);
    if inv.code != DefaultCode { ClassAvoidsReserved(inv.code, Digit); }
    if inv.number != DefaultNumber { ClassAvoidsReserved(inv.number, Digit); }
    if inv.date != DefaultDate { ClassAvoidsReserved(inv.date, Digit); }
    if inv.seller != DefaultSeller { ClassAvoidsReserved(inv.seller, NameChar); }
    if inv.buyer != DefaultBuyer { ClassAvoidsReserved(inv.buyer, NameChar); }
  }

  /**
   * The name a readable file gets, with every tried name sanitised: the
   * rendering plus `.pdf` with reserved characters removed, or, when that
   * exists and is not the file itself, the sanitised rendering with the
   * least free `_k` suffix. None is the KeyError of an unknown placeholder.
   */
  function Target(fmt: Template, info: Fields, file: string, dir: set<string>): (r: Option<string>)
    ensures r.None? <==> !(Slots(fmt) <= info.Keys)
    ensures r.Some? ==> NoneOf(r.value, Reserved)
    ensures r.Some? ==> r.value !in dir || r.value == file
    ensures r.Some? ==> var c := RemoveReserved(Render(fmt, info).value + Extension);
      && (c !in dir || c == file ==> r.value == c)
      && (c in dir && c != file ==>
            r.value == SuffixName(RemoveReserved(Render(fmt, info).value), FreeSuffix(RemoveReserved(Render(fmt, info).value), dir)))
  {
    match Render(fmt, info)
    case None => None
    case Some(rendered) =>
      var candidate := RemoveReserved(rendered + Extension);
      if candidate in dir && candidate != file then
        var base := RemoveReserved(rendered);
        SuffixNameAvoids(base, FreeSuffix(base, dir));
        Some(SuffixName(base, FreeSuffix(base, dir)))
      else Some(candidate)
  }

  /** Lines 130-143 as written: the suffixed names are built from the unsanitised rendering. */
  function TargetAsWritten(fmt: Template, info: Fields, file: string, dir: set<string>): (r: Option<string>)
    ensures r.None? <==> !(Slots(fmt) <= info.Keys)
    ensures r.Some? ==> r.value !in dir || r.value == file
    ensures r.Some? ==> var c := RemoveReserved(Render(fmt, info).value + Extension);
      && (c !in dir || c == file ==> r.value == c)
      && (c in dir && c != file ==> r.value == SuffixName(Render(fmt, info).value, FreeSuffix(Render(fmt, info).value, dir)))
  {
    match Render(fmt, info)
    case None => None
    case Some(rendered) =>
      var candidate := RemoveReserved(rendered + Extension);
      if candidate in dir && candidate != file then
        Some(SuffixName(rendered, FreeSuffix(rendered, dir)))
      else Some(candidate)
  }

  /**
   * The discrepancy: when a template literal carries a reserved character
   * and the sanitised candidate is taken, the chosen name still carries it.
   */
  lemma AsWrittenKeepsReserved(fmt: Template, info: Fields, file: string, dir: set<string>, rendered: string)
    requires Render(fmt, info) == Some(rendered) && !NoneOf(rendered, Reserved)
    requires RemoveReserved(rendered + Extension) in dir && RemoveReserved(rendered + Extension) != file
    ensures !NoneOf(TargetAsWritten(fmt, info, file, dir).value, Reserved)
  {
    var m :| 0 <= m < |rendered| && rendered[m] in Reserved;
    var r := TargetAsWritten(fmt, info, file, dir).value;
    assert r == rendered + ("_" + Dec(FreeSuffix(rendered, dir)) + Extension);
    assert r[m] == rendered[m];
  }

  /**
   * With a template whose literals are clean, such as the configured one,
   * and a well-formed invoice, which every extracted one is, both readings agree.
   */
  lemma AsWrittenAgreesOnCleanTemplates(fmt: Template, inv: Invoice, file: string, dir: set<string>)
    requires LiteralsAvoid(fmt, Reserved) && WellFormed(inv)
    ensures TargetAsWritten(fmt, Dict(inv), file, dir) == Target(fmt, Dict(inv), file, dir)
  {
    var info := Dict(inv);
    if Render(fmt, info).Some? {
      WellFormedAvoidsReserved(inv);
      RenderAvoids(fmt, info, Reserved);
      RemoveReservedIdempotent(Render(fmt, info).value);
    }
  }

  /** The configured template names only extracted keys and has clean literals. */
  lemma NamingFormatIsSafe()
    ensures Slots(NamingFormat) == {"date", "seller", "amount"}
    ensures Slots(NamingFormat) <= FieldKeys
    ensures LiteralsAvoid(NamingFormat, Reserved)
  {
    assert NamingFormat[1..] == [Lit("_"), Slot("seller"), Lit("_"), Slot("amount")];
    assert NamingFormat[1..][1..] == [Slot("seller"), Lit("_"), Slot("amount")];
    assert NamingFormat[1..][1..][1..] == [Lit("_"), Slot("amount")];
    assert NamingFormat[1..][1..][1..][1..] == [Slot("amount")];
    assert NamingFormat[1..][1..][1..][1..][1..] == [];
  }

  /** The configured template gives `date_seller_amount`. */
  lemma NamingFormatRenders(inv: Invoice)
    ensures Render(NamingFormat, Dict(inv)) == Some(inv.date + "_" + inv.seller + "_" + inv.amount)
  {
    RenderTriple("date", "seller", "amount", Dict(inv));
  }

  /** What became of one file. */
  datatype Outcome =
    | PrefixSkipped             // stem contains the failure marker
    | Unreadable                // no text could be read
    | Renamed(target: string)
    | RenameFailed(target: string)
    | KeyError                  // the template named a missing key; the batch stops

  /** The folder's names, one outcome per file handled so far, and whether an exception ended the batch. */
  datatype Run = Run(dir: set<string>, log: seq<Outcome>, halted: bool)

  /**
   * What `rename` does with one file, given the names now in the folder;
   * `info` is what `extract_invoice_data` returns for it and `ok` whether
   * the rename call succeeds.
   */
  function Handle(fmt: Template, dir: set<string>, file: string, info: Option<Invoice>, ok: bool): (o: Outcome)
    ensures o == PrefixSkipped <==> Contains(Stem(file), UnknownPrefix)
    ensures o == Unreadable <==> !Contains(Stem(file), UnknownPrefix) && info.None?
    ensures o == KeyError <==> !Contains(Stem(file), UnknownPrefix) && info.Some? && !(Slots(fmt) <= FieldKeys)
    ensures o.Renamed? || o.RenameFailed? ==>
      && info.Some? && Target(fmt, Dict(info.value), file, dir) == Some(o.target)
      && (o.Renamed? <==> ok)
      && (o.target !in dir || o.target == file)
      && NoneOf(o.target, Reserved)
  {
    if Contains(Stem(file), UnknownPrefix) then PrefixSkipped
    else match info
      case None => Unreadable
      case Some(inv) =>
        match Target(fmt, Dict(inv), file, dir)
        case None => KeyError
        case Some(target) => if ok then Renamed(target) else RenameFailed(target)
  }

  /** One turn of the `for file_path in files` loop: record the outcome and apply a successful rename. */
  function Step(fmt: Template, st: Run, file: string, info: Option<Invoice>, ok: bool): Run {
    if st.halted then st
    else
      var o := Handle(fmt, st.dir, file, info, ok);
      Run(if o.Renamed? then st.dir - {file} + {o.target} else st.dir, st.log + [o], o == KeyError)
  }

  /** The state after the first `n` files of the listing, given what the extractor returns for each. */
  function RunUpTo(fmt: Template, dir0: set<string>, files: seq<string>, infos: seq<Option<Invoice>>,
                   oks: seq<bool>, n: nat): Run
    requires n <= |files| && |infos| == |files| && |oks| == |files|
  {
    if n == 0 then Run(dir0, [], false)
    else Step(fmt, RunUpTo(fmt, dir0, files, infos, oks, n - 1), files[n - 1], infos[n - 1], oks[n - 1])
  }

  /** Once an exception has ended the batch, no later file changes anything. */
  lemma {:induction false} HaltedStays(fmt: Template, dir0: set<string>, files: seq<string>,
                                       infos: seq<Option<Invoice>>, oks: seq<bool>, n: nat, m: nat)
    requires n <= m <= |files| && |infos| == |files| && |oks| == |files|
    requires RunUpTo(fmt, dir0, files, infos, oks, n).halted
    ensures RunUpTo(fmt, dir0, files, infos, oks, m) == RunUpTo(fmt, dir0, files, infos, oks, n)
  {
    if m > n {
      HaltedStays(fmt, dir0, files, infos, oks, n, m - 1);
    }
  }

  /**
   * Over the batch the folder keeps its size and every file not yet
   * reached is still there under its old name.
   */
  lemma {:induction false} RunKeepsFiles(fmt: Template, dir0: set<string>, files: seq<string>,
                                         infos: seq<Option<Invoice>>, oks: seq<bool>, n: nat)
    requires n <= |files| && |infos| == |files| && |oks| == |files|
    requires Listing(dir0, files)
    ensures |RunUpTo(fmt, dir0, files, infos, oks, n).dir| == |dir0|
    ensures forall j :: n <= j < |files| ==> files[j] in RunUpTo(fmt, dir0, files, infos, oks, n).dir
  {
    if n > 0 {
      RunKeepsFiles(fmt, dir0, files, infos, oks, n - 1);
      var st := RunUpTo(fmt, dir0, files, infos, oks, n - 1);
      var others := files[n..];
      assert forall j :: 0 <= j < |others| ==> others[j] == files[n + j];
      StepKeepsFiles(fmt, st, files[n - 1], infos[n - 1], oks[n - 1], others);
      assert forall j :: n <= j < |files| ==> files[j] == others[j - n];
    }
  }

  /** One turn keeps the folder's size and every other listed file. */
  lemma StepKeepsFiles(fmt: Template, st: Run, file: string, info: Option<Invoice>, ok: bool, others: seq<string>)
    requires file in st.dir
    requires forall j :: 0 <= j < |others| ==> others[j] in st.dir && others[j] != file
    ensures |Step(fmt, st, file, info, ok).dir| == |st.dir|
    ensures forall j :: 0 <= j < |others| ==> others[j] in Step(fmt, st, file, info, ok).dir
  {
    if !st.halted {
      var o := Handle(fmt, st.dir, file, info, ok);
      if o.Renamed? {
        MoveKeeps(st.dir, file, o.target, others);
      }
    }
  }

  /**
   * Every rename target in the outcomes is free of reserved characters,
   * and there is one outcome per file until an exception ends the batch.
   */
  lemma {:induction false} RunTargetsClean(fmt: Template, dir0: set<string>, files: seq<string>,
                                           infos: seq<Option<Invoice>>, oks: seq<bool>, n: nat)
    requires n <= |files| && |infos| == |files| && |oks| == |files|
    ensures var r := RunUpTo(fmt, dir0, files, infos, oks, n);
      && (!r.halted ==> |r.log| == n)
      && (forall k :: 0 <= k < |r.log| && r.log[k].Renamed? ==> NoneOf(r.log[k].target, Reserved))
  {
    if n > 0 {
      RunTargetsClean(fmt, dir0, files, infos, oks, n - 1);
      var st := RunUpTo(fmt, dir0, files, infos, oks, n - 1);
      if !st.halted {
        var o := Handle(fmt, st.dir, files[n - 1], infos[n - 1], oks[n - 1]);
        assert RunUpTo(fmt, dir0, files, infos, oks, n).log == st.log + [o];
      }
    }
  }

  /**
   * With a template that names only extracted keys, such as the
   * configured one, no file raises, so the batch handles every file.
   */
  lemma {:induction false} RunCompletes(fmt: Template, dir0: set<string>, files: seq<string>,
                                        infos: seq<Option<Invoice>>, oks: seq<bool>, n: nat)
    requires Slots(fmt) <= FieldKeys
    requires n <= |files| && |infos| == |files| && |oks| == |files|
    ensures !RunUpTo(fmt, dir0, files, infos, oks, n).halted
    ensures |RunUpTo(fmt, dir0, files, infos, oks, n).log| == n
    ensures KeyError !in RunUpTo(fmt, dir0, files, infos, oks, n).log
  {
    if n > 0 {
      RunCompletes(fmt, dir0, files, infos, oks, n - 1);
      var st := RunUpTo(fmt, dir0, files, infos, oks, n - 1);
      StepCompletes(fmt, st, files[n - 1], infos[n - 1], oks[n - 1]);
    }
  }

  /** With a template that names only extracted keys, a turn of a running batch appends one outcome that is not a KeyError. */
  lemma StepCompletes(fmt: Template, st: Run, file: string, info: Option<Invoice>, ok: bool)
    requires Slots(fmt) <= FieldKeys && !st.halted
    ensures !Step(fmt, st, file, info, ok).halted
    ensures |Step(fmt, st, file, info, ok).log| == |st.log| + 1
    ensures Step(fmt, st, file, info, ok).log[..|st.log|] == st.log
    ensures Step(fmt, st, file, info, ok).log[|st.log|] != KeyError
    ensures KeyError !in st.log ==> KeyError !in Step(fmt, st, file, info, ok).log
  {
    var o := Handle(fmt, st.dir, file, info, ok);
    assert Step(fmt, st, file, info, ok).log == st.log + [o];
  }

  /** Lines 130-143: render the template, sanitise, and on a collision look for a free suffix. */
  method ChooseTarget(fmt: Template, info: Fields, file: string, dir: set<string>) returns (target: Option<string>)
    ensures target == Target(fmt, info, file, dir)
  {
    var rendered := Render(fmt, info);
    if rendered.None? {
      return None;
    }
    var name := RemoveReserved(rendered.value + Extension);
    if name in dir && name != file {
      name := NextFreeName(name, RemoveReserved(rendered.value), dir);
    }
    return Some(name);
  }

  /** Lines 125-150 for a file whose text was read and parsed into `info`. */
  method Place(fmt: Template, st: Run, file: string, info: Option<Invoice>, ok: bool) returns (next: Run)
    requires !st.halted && !Contains(Stem(file), UnknownPrefix)
    ensures next == Step(fmt, st, file, info, ok)
  {
    if info.None? {
      return st.(log := st.log + [Unreadable]);
    }
    var target := ChooseTarget(fmt, Dict(info.value), file, st.dir);
    if target.None? {
      return Run(st.dir, st.log + [KeyError], true);
    }
    if ok {
      next := Run(st.dir - {file} + {target.value}, st.log + [Renamed(target.value)], false);
    } else {
      next := st.(log := st.log + [RenameFailed(target.value)]);
    }
  }

  /** One turn of the loop of lines 117-150: the prefix test, extraction, then renaming. */
  method Visit(fmt: Template, st: Run, file: string, text: Option<string>, ok: bool) returns (next: Run)
    requires !st.halted
    ensures next == Step(fmt, st, file, Extract(text), ok)
  {
    if Contains(Stem(file), UnknownPrefix) {
      return st.(log := st.log + [PrefixSkipped]);
    }
    var info := ExtractInvoiceData(text);
    next := Place(fmt, st, file, info, ok);
  }

  /** What the extractor returns for each text of the listing. */
  function Extracted(texts: seq<Option<string>>): seq<Option<Invoice>> {
    seq(|texts|, i requires 0 <= i < |texts| => Extract(texts[i]))
  }

  /** The turn of the loop for the `i`-th file of the listing. */
  method Advance(fmt: Template, dir0: set<string>, files: seq<string>, texts: seq<Option<string>>,
                 oks: seq<bool>, i: nat, run: Run) returns (next: Run)
    requires i < |files| && |texts| == |files| && |oks| == |files|
    requires run == RunUpTo(fmt, dir0, files, Extracted(texts), oks, i) && !run.halted
    ensures next == RunUpTo(fmt, dir0, files, Extracted(texts), oks, i + 1)
  {
    next := Visit(fmt, run, files[i], texts[i], oks[i]);
    assert Extracted(texts)[i] == Extract(texts[i]);
  }

  /**
   * `InvoiceRenamer.rename` over a listing, with every tried name sanitised.
   * `texts[i]` is what the reader gives for `files[i]` (None for an
   * exception or an empty page) and `oks[i]` whether renaming it succeeds.
   */
  method Rename(fmt: Template, dir0: set<string>, files: seq<string>, texts: seq<Option<string>>,
                oks: seq<bool>) returns (run: Run)
    requires |texts| == |files| && |oks| == |files|
    ensures run == RunUpTo(fmt, dir0, files, Extracted(texts), oks, |files|)
  {
    ghost var infos := Extracted(texts);
    run := Run(dir0, [], false);
    var i := 0;
    while i < |files| && !run.halted
      invariant i <= |files| && run == RunUpTo(fmt, dir0, files, infos, oks, i)
    {
      run := Advance(fmt, dir0, files, texts, oks, i, run);
      i := i + 1;
    }
    if i < |files| {
      HaltedStays(fmt, dir0, files, infos, oks, i, |files|);
    }
  }
}
