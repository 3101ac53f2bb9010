# Invoice renamer, modelled in Dafny

Two Python scripts rename the PDF files of Chinese electronic invoices
(发票) after what is printed on them.

- `rename_invoices.py` is a configurable `InvoiceRenamer` class. It works with a fixed template, `{date}_{seller}_{amount}`.
- `invoice_tool.py` is an interactive tool. The user picks one of four preset templates, and it counts successes, failures and skips.

Both read the first page's text and pull six fields out of it with the
same regular expressions: invoice code, invoice number, date, amount,
seller and buyer. They then fill the template, strip the characters a
Windows file name may not hold, and move each file to that name. When the
name is taken, they use the least free `_1`, `_2`, … suffix instead.

The model has one module per concern:

| file | module | what it holds |
|---|---|---|
| `wrappers.dfy` | `Wrappers` | `Option` |
| `text.dfy` | `Text` | character classes (`\s` as Python's `str.isspace`, `\d`, the amount and name classes), removal of a set of characters, `str.strip`, `str.zfill`, decimal spelling |
| `patterns.dfy` | `Patterns` | each fixed regular expression as a scanner at one position, `re.search` as the leftmost match and `re.findall` as successive non-overlapping matches |
| `extraction.dfy` | `Extraction` | the field defaults, the `Invoice` record and its dictionary, and the rules for code, number, date, amount and names that both scripts share |
| `templates.dfy` | `Templates` | `str.format(**fields)` on a template already split into literals and `{key}` placeholders, with KeyError as `None` |
| `naming.dfy` | `Naming` | the reserved-character removal, `_k.pdf` suffix names, the least free suffix, the collision loop as a method, and `Path.stem` |
| `rename_invoices.dfy` | `RenameInvoices` | `clean_text`, `extract_invoice_data`, the naming of one file and the `rename` batch |
| `invoice_tool.dfy` | `InvoiceTool` | the presets, `clean_filename`, `extract_invoice_data`, the format menu, the naming of one file and the counted batch loop of `main` |

How the regular expressions are modelled: each fixed pattern becomes a
scanner that tries to match at one position. Backtracking never moves
where a greedy repetition stops, because in almost every place a repeated
class is followed by an element that cannot match a character of that
class. The one exception is `\s*[¥￥]?\s*` in the `(小写)` pattern. Giving
back whitespace from the first run there only hands it to the second run,
and skipping a yen sign that is present would make the amount start at
that sign, which is not an amount character. So a greedy scan without
backtracking finds the same match as the regular-expression engine.

The lazy `.*?` of the `价税合计` fallback becomes a search for the first
position after the label where a yen sign and an amount follow. The
`FirstWhere` function does that search.

How the batches are modelled:

- Each batch is a function `RunUpTo(n)` that folds over the first `n` files. The loop is a method whose invariant ties its variables to `RunUpTo(i)`.
- The folder is a set of names. A successful rename takes out the file's name and adds the target.
- What the PDF reader returns for each file (`texts[i]`) is a parameter. So is whether the operating system's rename succeeds (`oks[i]`).
- The fold takes what the extractor returns for each file. The loop method reads the texts, and its postcondition is the fold over their extractions (`Extracted`).
- Each loop body is a chain of small methods: the skip test, the extraction, the naming, then the rename call and the bookkeeping.

## Model

| member | source | states |
|---|---|---|
| Text.RunEnd | rename_invoices.py:65 | a repetition such as `\s*` or `\d+` stops at the first character outside its class, and every character it passes is in the class |
| Text.RunSlice | rename_invoices.py:75 | every slice from the start of a greedy run to a point within it lies in the class |
| Text.RunEndIs | rename_invoices.py:65 | a greedy run stops at the end of a span of its class that is followed by the end of the text or a character outside the class |
| Text.NoneOfConcat | rename_invoices.py:133 | a concatenation avoids a set of characters exactly when both its parts do |
| Text.Without | rename_invoices.py:133 | the result of deleting every character of a set holds none of them and is no longer than the input |
| Text.WithoutConcat | rename_invoices.py:133 | deleting characters from a concatenation is deleting them from each part |
| Text.WithoutIdentity | rename_invoices.py:133 | deletion leaves a string unchanged exactly when it holds none of the characters |
| Text.WithoutIdempotent | rename_invoices.py:133 | deleting twice is deleting once |
| Text.WithoutTwice | rename_invoices.py:37 | two successive `replace(c, "")` calls equal one deletion of both characters |
| Text.Strip | invoice_tool.py:34 | `str.strip()` returns the text with leading and trailing whitespace cut, and only that: a contiguous slice with whitespace alone on either side of it, neither starting nor ending with whitespace |
| Text.StripPadded | invoice_tool.py:34 | stripping a text that is whitespace, then a part that neither starts nor ends with whitespace, then whitespace gives that part |
| Text.TrailEndIs | invoice_tool.py:34 | the trailing-whitespace scan stops just past the last character that is not whitespace |
| Text.StripIdentity | invoice_tool.py:34 | `strip()` leaves a string alone exactly when its ends are not whitespace |
| Text.StripIdempotent | invoice_tool.py:34 | stripping twice is stripping once |
| Text.ZFill | rename_invoices.py:78 | `zfill(width)` yields a string of length max(len, width) |
| Text.Dec | rename_invoices.py:141 | the decimal spelling of the counter is a non-empty digit string with no leading zero |
| Text.DecValue | rename_invoices.py:141 | reading the spelling back gives the counter |
| Text.DecInjective | rename_invoices.py:141 | distinct counters are spelled differently |
| Patterns.CaptureRun | rename_invoices.py:65 | a `(...+)` group matches exactly when the first character is in its class; it then captures the maximal non-empty run starting at that position, which neither neighbour extends |
| Patterns.LabelledDigitsAt | rename_invoices.py:65-72 | a `label[:：]\s*(\d+)` match at a position reads the label, a colon and whitespace only, then captures a maximal non-empty digit run, and ends after the position |
| Patterns.UpToTwoDigits | rename_invoices.py:75 | `\d{1,2}` takes at most two characters, all digits, and stops short of two only at the end of the text or a non-digit |
| Patterns.UnitPartAt | rename_invoices.py:75 | `\s*(\d{1,2})\s*unit` from a position reads whitespace, one or two captured digits, whitespace and the unit character, and ends just past that unit |
| Patterns.YearAt | rename_invoices.py:75 | `(\d{4})\s*年` at a position reads four digits, then whitespace only, then `年`, and ends just past the `年` |
| Patterns.DateMatch | rename_invoices.py:75-77 | the year, month and day slices of a date match form groups of four, one or two, and one or two digits |
| Patterns.DateAt | rename_invoices.py:75 | a date match at a position reads four digits, whitespace, `年`, whitespace, one or two digits, whitespace, `月`, whitespace, one or two digits, whitespace and `日`, and its groups are exactly those three digit runs |
| Patterns.SmallAt | rename_invoices.py:82 | a `(小写)` amount match at a position reads `(小写)`, an optional colon, then whitespace with at most one yen sign among it, then captures a maximal non-empty run of digits and dots |
| Patterns.YenAt | rename_invoices.py:85 | a yen-sign amount match at a position reads a yen sign and whitespace only, then captures a maximal non-empty run of digits and dots |
| Patterns.NameAt | rename_invoices.py:95 | a `名称[:：]` match at a position reads `名称`, a colon and whitespace only, then captures a maximal non-empty run of the name class |
| Patterns.LabelledDigitsFound | rename_invoices.py:65-72 | a label, a colon, whitespace and a maximal digit run do match, capturing that run |
| Patterns.UnitPartFound | rename_invoices.py:75 | whitespace, one or two digits, whitespace and the unit do match, capturing those digits |
| Patterns.YearFound | rename_invoices.py:75 | four digits, whitespace and `年` do match |
| Patterns.DateFound | rename_invoices.py:75 | date-shaped text (year, month and day parts, as `DateAt` describes them) does match, with their digits as groups |
| Patterns.DatePartsFound | rename_invoices.py:75 | in date-shaped text the year, month and day scanners each find their part |
| Patterns.PartsAreDateText | rename_invoices.py:75 | where the year, month and day scanners all succeed, the text is date-shaped |
| Patterns.DateOfParts | rename_invoices.py:75 | the date scanner's match is made of its year, month and day parts |
| Patterns.SmallFound | rename_invoices.py:82 | `(小写)`, an optional colon, whitespace, an optional yen sign, whitespace and a maximal amount run do match, capturing that run |
| Patterns.YenFound | rename_invoices.py:85 | a yen sign, whitespace and a maximal amount run do match, capturing that run |
| Patterns.NameFound | rename_invoices.py:95 | `名称`, a colon, whitespace and a maximal run of the name class do match, capturing that run |
| Patterns.FirstWhere | rename_invoices.py:85 | the lazy `.*?` stops at the least position where the rest matches; no earlier position does |
| Patterns.TotalAt | rename_invoices.py:85 | a `价税合计` match at a position reads the label and is the yen-amount match at the first position after it where one starts; no position in between starts one |
| Patterns.TotalFound | rename_invoices.py:85 | the `价税合计` match is the yen match at the first position after the label where one starts |
| Patterns.MatchAt | rename_invoices.py:65-95 | a match of any pattern at a position lies within the text, has that pattern's groups, and opens with the pattern's label, year digits or yen sign; each single group is a maximal run of its class, preceded and followed by characters outside it |
| Patterns.FirstMatch | rename_invoices.py:65 | the position found is the least one at or after the start where the pattern matches; no earlier position matches |
| Patterns.Search | rename_invoices.py:65 | `re.search` yields groups of the right shape, and finds nothing exactly when no position matches |
| Patterns.SearchIsLeftmost | rename_invoices.py:65 | `re.search` returns the match at the leftmost matching position |
| Patterns.FindAll | rename_invoices.py:95 | every item `re.findall` returns is a non-empty run of the pattern's class |
| Patterns.FindAllEmpty | rename_invoices.py:95 | `findall` is empty exactly when no position from the start matches |
| Patterns.FindAllStep | rename_invoices.py:95 | `findall` is the capture of the leftmost match followed by `findall` from that match's end |
| Patterns.FindAllStartsWithSearch | rename_invoices.py:95 | `findall` is empty exactly when `search` fails, and its first item is `search`'s capture |
| Patterns.TotalFailsAfterFailedLabel | rename_invoices.py:85 | if no yen amount follows the first `价税合计`, none follows any later one either, so the lazy fallback fails as a whole |
| Extraction.Dict | rename_invoices.py:45-52 | the dictionary has exactly the six keys, and each key maps to the invoice field of that name |
| Extraction.Capture | rename_invoices.py:65-67 | `match.group(1)` is present exactly when the search succeeds; it is then the leftmost match's first group, a non-empty run of the pattern's class |
| Extraction.CodeOf | rename_invoices.py:65-67 | the code is the fallback exactly when nothing matches, and otherwise the leftmost match's digits |
| Extraction.NumberOf | rename_invoices.py:70-72 | the number is the fallback exactly when nothing matches, and otherwise the leftmost match's digits |
| Extraction.DateValue | rename_invoices.py:77-78 | the date is eight digits: the year, then month and day zero-padded to two digits with their values kept |
| Extraction.PadTwo | rename_invoices.py:78 | `zfill(2)` of one or two digits gives two digits of the same value |
| Extraction.DateOf | rename_invoices.py:75-78 | the date is the fallback exactly when no date matches, and otherwise the eight digits built from the leftmost match's groups |
| Extraction.AmountOf | rename_invoices.py:82-88 | the `(小写)` amount wins; the `价税合计` fallback is used only when that fails; otherwise `0.00`; the result is always a non-empty run of digits and dots |
| Extraction.Names | rename_invoices.py:95 | every name is a non-empty run of CJK, Latin letters, digits and brackets; the list is empty exactly when `search` fails, else it is the leftmost match's capture followed by `findall` from that match's end |
| Extraction.LeftmostCapture | rename_invoices.py:65-67 | when the pattern first matches at a position, `group(1)` is that match's capture |
| Extraction.CodeFound | rename_invoices.py:65-67 | `发票代码：` followed by digits, with no earlier match, yields those digits as the code |
| Extraction.NumberFound | rename_invoices.py:70-72 | `发票号码：` followed by digits, with no earlier match, yields those digits as the number |
| Extraction.SmallAmountFound | rename_invoices.py:82-88 | a `(小写)` amount, with no earlier match, is the amount |
| Extraction.CodeExample | rename_invoices.py:65-67 | `发票代码：123` gives the code `123` |
| Extraction.AmountExample | rename_invoices.py:82-88 | `(小写)¥12.30` gives the amount `12.30` |
| Extraction.YearExample | rename_invoices.py:75 | in `2023年5月1日` the year group is `2023`, followed at once by `年` |
| Extraction.MonthExample | rename_invoices.py:75 | in `2023年5月1日` the month group is `5`, followed at once by `月` |
| Extraction.DayExample | rename_invoices.py:75 | in `2023年5月1日` the day group is `1`, followed at once by `日` |
| Extraction.DateAtExample | rename_invoices.py:75 | the date pattern matches all of `2023年5月1日` from its start, with groups `2023`, `5`, `1` |
| Extraction.DateMatchExample | rename_invoices.py:75 | searching `2023年5月1日` matches the whole text with groups `2023`, `5`, `1` |
| Extraction.DateValueExample | rename_invoices.py:77-78 | the groups `2023`, `5`, `1` become `20230501` |
| Extraction.DateExample | rename_invoices.py:74-78 | `2023年5月1日` becomes `20230501` |
| Templates.Slots | rename_invoices.py:130 | every placeholder of the template is among its slots |
| Templates.Render | rename_invoices.py:130 | `format(**info)` succeeds exactly when every placeholder names a key of the dictionary |
| Templates.RenderLit | rename_invoices.py:130 | a literal renders to itself |
| Templates.RenderSlot | rename_invoices.py:130 | a placeholder renders to its key's value, or raises when the key is missing |
| Templates.RenderConcat | rename_invoices.py:130 | rendering a concatenation of templates concatenates the renderings, and raises when either part raises |
| Templates.RenderPair | invoice_tool.py:21 | `{a}_{b}` renders to the two values joined by an underscore |
| Templates.RenderTriple | rename_invoices.py:21 | `{a}_{b}_{c}` renders to the three values joined by underscores |
| Templates.RenderAvoids | rename_invoices.py:130-133 | filling a template adds no character that neither its literals nor the values had |
| Naming.RemoveReserved | rename_invoices.py:133 | the sanitised name holds no backslash, slash, star, question mark, colon, double quote, angle bracket or bar |
| Naming.RemoveReservedIdempotent | rename_invoices.py:133 | sanitising twice is sanitising once, and a clean name is left alone |
| Naming.SuffixName | rename_invoices.py:141 | `f"{base}_{counter}.pdf"` has the length of its parts |
| Naming.SuffixNameInjective | rename_invoices.py:141 | distinct counters give distinct names |
| Naming.SuffixesBounded | rename_invoices.py:138-143 | if the names of counters 1 to c-1 are all taken, c is at most one more than the folder's size |
| Naming.FreeSuffixFrom | rename_invoices.py:138-143 | counting on from a counter whose predecessors are all taken reaches a free name no later than one past the folder's size, passing only taken names |
| Naming.FreeSuffix | rename_invoices.py:138-143 | the chosen counter is at least 1 and at most one more than the folder's size, its name is free, and every smaller counter's name is taken |
| Naming.NextFreeName | rename_invoices.py:138-143 | the `while new_path.exists()` loop ends, on the name with the least free counter, which is not in the folder |
| Naming.SuffixTailAvoids | rename_invoices.py:141 | the `_k.pdf` part of a suffix name holds no reserved character |
| Naming.SanitisedSuffixName | rename_invoices.py:133-141 | sanitising a suffix name only touches its base |
| Naming.SuffixNameAvoids | rename_invoices.py:141 | a suffix name holds a reserved character only if its base does |
| Naming.ClassAvoidsReserved | rename_invoices.py:65-95 | no character class the patterns capture holds a reserved character |
| Naming.MoveKeeps | rename_invoices.py:146 | moving a file to a free name, or to its own, keeps the folder's size and every other file |
| Naming.RFind | rename_invoices.py:122 | the last position of a character, or -1 when it does not occur |
| Naming.Stem | rename_invoices.py:122 | a name without a dot is its own stem |
| Naming.StemOfPdf | rename_invoices.py:122 | the stem of `x.pdf` is `x` |
| RenameInvoices.CleanText | rename_invoices.py:34-38 | the cleaned text holds no space and no no-break space, and is the text with exactly those deleted (empty for no text) |
| RenameInvoices.CleanTextIdempotent | rename_invoices.py:34-38 | cleaning cleaned text changes nothing |
| RenameInvoices.InvoiceOf | rename_invoices.py:63-100 | every field is its fallback or a value of its own pattern's class, and a date that is not the fallback is eight digits |
| RenameInvoices.InvoiceOfSearches | rename_invoices.py:63-88 | code, number and date are the leftmost match's capture (the date zero-padded), and their fallbacks exactly when their pattern finds nothing; the amount is the `(小写)` capture, else the `价税合计` capture, else `0.00` |
| RenameInvoices.InvoiceOfNames | rename_invoices.py:95-100 | of two or more names the first is the buyer and the second the seller; a lone name is the seller; with none both keep their fallbacks |
| RenameInvoices.Extract | rename_invoices.py:58-61 | there is no invoice exactly when the reader gives no text or empty text |
| RenameInvoices.ExtractInvoiceData | rename_invoices.py:45-106 | starting from the defaults and overwriting one key per matching rule gives the invoice described above |
| RenameInvoices.DefaultsAvoidReserved | rename_invoices.py:45-52 | no fallback value holds a reserved character |
| RenameInvoices.WellFormedAvoidsReserved | rename_invoices.py:63-100 | no value of an extracted invoice holds a reserved character |
| RenameInvoices.Target | rename_invoices.py:128-143 | a name exists exactly when the template names only known keys; it is the sanitised rendering plus `.pdf` when that is free or the file's own, and otherwise the sanitised rendering with the least free `_k.pdf` suffix; it is always sanitised, and free or the file's own |
| RenameInvoices.TargetAsWritten | rename_invoices.py:128-143 | the code as written: the sanitised candidate when it is free or the file's own, and otherwise the UNSANITISED rendering with the least free `_k.pdf` suffix; free or the file's own |
| RenameInvoices.AsWrittenKeepsReserved | rename_invoices.py:141 | when the rendering holds a reserved character and its sanitised name is taken, the name chosen as written still holds one |
| RenameInvoices.AsWrittenAgreesOnCleanTemplates | rename_invoices.py:128-143 | for a template whose literals are clean, such as the configured one, and any extracted invoice, the code as written and the corrected naming choose the same name |
| RenameInvoices.NamingFormatIsSafe | rename_invoices.py:21 | the configured template names `date`, `seller` and `amount`, all extracted keys, and has no reserved character |
| RenameInvoices.NamingFormatRenders | rename_invoices.py:21 | the configured template renders an invoice as `date_seller_amount` |
| RenameInvoices.Handle | rename_invoices.py:120-149 | a file whose stem holds `解析失败_` is skipped; one without text is reported unreadable; an unknown placeholder raises; otherwise the file is renamed, or fails to be, to the name the naming rule gives for its invoice, which is sanitised and free or its own |
| RenameInvoices.HaltedStays | rename_invoices.py:130 | once an exception has stopped the batch, no later file changes anything |
| RenameInvoices.RunKeepsFiles | rename_invoices.py:120-149 | for a listing of distinct files of the folder, the folder keeps its size and every file not yet reached is still present |
| RenameInvoices.StepKeepsFiles | rename_invoices.py:120-149 | one file's turn keeps the folder's size and every other listed file |
| RenameInvoices.RunTargetsClean | rename_invoices.py:120-149 | every rename target is sanitised, and each file handled has one outcome until an exception stops the batch |
| RenameInvoices.RunCompletes | rename_invoices.py:120-149 | with a template that names only extracted keys, the batch never stops early, logs one outcome per file, and none of them is a KeyError |
| RenameInvoices.StepCompletes | rename_invoices.py:120-149 | with a template that names only extracted keys, one turn of a running batch keeps it running and appends exactly one outcome, which is not a KeyError |
| RenameInvoices.ChooseTarget | rename_invoices.py:130-143 | rendering, sanitising and the collision loop choose the name `Target` describes |
| RenameInvoices.Place | rename_invoices.py:128-150 | for a file not skipped, the loop body after extraction leaves the folder and outcomes of one step of the fold |
| RenameInvoices.Visit | rename_invoices.py:120-150 | one pass of the loop body, extraction included, is one step of the fold |
| RenameInvoices.Advance | rename_invoices.py:120-150 | the turn for the `i`-th file takes the fold over the first `i` files to the fold over the first `i + 1` |
| RenameInvoices.Rename | rename_invoices.py:108-149 | the loop's final folder and outcomes are those of the fold over the whole listing, stopping at the first exception |
| InvoiceTool.PresetFormat | invoice_tool.py:10-27 | a menu key has a template exactly when it is one of `1` to `4` |
| InvoiceTool.SlotsWithin | invoice_tool.py:10-27 | a template whose every placeholder names a field key names only field keys |
| InvoiceTool.PresetsAreSafe | invoice_tool.py:10-27 | every preset names only extracted keys, so `format` never raises, and its literals are clean |
| InvoiceTool.FirstPresetIsNamingFormat | invoice_tool.py:11-14 | preset `1` is the template of the other script |
| InvoiceTool.PresetsRender | invoice_tool.py:10-27 | the presets render an invoice as `date_seller_amount`, `seller_date_amount`, `code_number` and `amount_seller` |
| InvoiceTool.CleanFilename | invoice_tool.py:32-34 | the cleaned name is the name with its reserved characters deleted and then its surrounding whitespace cut, and only that; it holds no reserved character, does not start or end with whitespace, and is no longer than the input |
| InvoiceTool.CleanFilenameIdempotent | invoice_tool.py:32-34 | cleaning a cleaned name changes nothing |
| InvoiceTool.CleanFilenameIdentity | invoice_tool.py:32-34 | a name is left alone exactly when it has no reserved character and its ends are not whitespace |
| InvoiceTool.InvoiceOf | invoice_tool.py:51-76 | the buyer is never set; the seller is the second name, or else the only one, or else the fallback |
| InvoiceTool.SameFieldsAsRenameInvoices | invoice_tool.py:37-82 | this script reads the same invoice as the other one, except for the buyer |
| InvoiceTool.Extract | invoice_tool.py:47-49 | there is no invoice exactly when the reader gives no text or empty text |
| InvoiceTool.ExtractInvoiceData | invoice_tool.py:39-82 | starting from the defaults and overwriting one key per matching rule gives the invoice described above |
| InvoiceTool.ChooseFormat | invoice_tool.py:107-115 | the chosen key is the first answer that is a menu key once stripped; every earlier answer was not one; no key is chosen only when no answer was one |
| InvoiceTool.NameBase | invoice_tool.py:142-143 | the cleaned rendering holds no reserved character |
| InvoiceTool.PdfNameClean | invoice_tool.py:144-157 | `base.pdf` and `base_k.pdf` of a clean base are clean and end in `.pdf` |
| InvoiceTool.Resolve | invoice_tool.py:142-159 | no rename exactly when `base.pdf` is the file's own name; otherwise `base.pdf` when it is free and `base_k.pdf` with the least free `k` when it is taken; the target is free, sanitised and ends in `.pdf` |
| InvoiceTool.Handle | invoice_tool.py:134-167 | a file without text is unreadable; a readable file is left alone exactly when it already has its cleaned name; otherwise it is renamed, or fails to be, to the name the naming rule gives for its invoice, which is free and sanitised |
| InvoiceTool.Record | invoice_tool.py:136-167 | recording an outcome appends it to the log, and only a successful rename changes the folder |
| InvoiceTool.Counts | invoice_tool.py:126-167 | an independent count of successes, failures and skips in the outcomes, adding up to their number |
| InvoiceTool.RecordCounts | invoice_tool.py:136-167 | recording one outcome keeps the three counters equal to the counts of the outcomes |
| InvoiceTool.CountersMatchLog | invoice_tool.py:126-171 | after any prefix of the listing the counters equal the counts of the outcomes and add up to the files handled: every file is counted exactly once |
| InvoiceTool.RunKeepsFiles | invoice_tool.py:130-167 | for a listing of distinct files of the folder, the folder keeps its size and every file not yet reached is still present |
| InvoiceTool.StepKeepsFiles | invoice_tool.py:130-167 | one file's turn keeps the folder's size and every other listed file |
| InvoiceTool.RunTargetsClean | invoice_tool.py:130-167 | every rename target is sanitised |
| InvoiceTool.ResolveName | invoice_tool.py:142-159 | rendering, cleaning and the collision loop reach the plan `Resolve` describes |
| InvoiceTool.Judge | invoice_tool.py:137-167 | the loop body after extraction gives the outcome `Handle` describes |
| InvoiceTool.HandleFile | invoice_tool.py:134-167 | the loop body, extraction included, gives the outcome `Handle` describes for the extracted invoice |
| InvoiceTool.Count | invoice_tool.py:137-167 | bumping the counter of an outcome and applying a rename is recording it |
| InvoiceTool.RenameAll | invoice_tool.py:122-167 | the loop's final folder, counters and outcomes are those of the fold over the whole listing |
| InvoiceTool.Session | invoice_tool.py:107-167 | no batch runs exactly when no answer before the last picks a menu key, so that the answers run out at the menu or at the Enter prompt; otherwise the batch runs with the template of the first answer that does |

## Left out

- Reading PDFs (pdfplumber) is not modelled: the first page's text, or its absence (any reader exception included), is a per-file parameter.
- Listing the folder (`glob("*.pdf")`), `Path.exists` and `Path.rename` are not modelled as I/O. The folder is a set of names, the listing a sequence of distinct names in it, and the outcome of each rename a per-file parameter.
- Paths compare as plain strings. Windows' case-insensitive names and path normalisation are not modelled; a name holding `/` is treated as a plain name.
- `print` output, the banner, the preset descriptions and the final `input()` pause are not modelled.
- The folder-path prompt and its existence check (invoice_tool.py:91-100) are not modelled, nor the folder check and the empty-listing message of `rename` (rename_invoices.py:109-118). These only decide whether the batch starts.
- `TARGET_FOLDER`, the `__main__` blocks and the imports of `os`, `sys` and `time` are not modelled.
- The commented-out renaming of failed files to `解析失败_…` is not modelled, because it is not code.
- `clean_text` is modelled, although neither script ever calls it.
- `\d` is taken as the ASCII digits `0`-`9`; Python's `\d` also matches other Unicode decimal digits.
- Templates are given already split into literals and `{key}` placeholders. `str.format`'s own parsing, conversions, format specifications, attribute access and indexing are not modelled.
- Regular expressions are modelled only as the fixed patterns the scripts use, not in general.
- Patterns.MatchAt: of the text it states only how each pattern opens (its label, its year digits or its yen sign); the whole text of a match is stated by the contract of the scanner it dispatches to (Patterns.LabelledDigitsAt, Patterns.DateAt, Patterns.SmallAt, Patterns.YenAt, Patterns.TotalAt, Patterns.NameAt).
- Patterns.FindAll: its contract bounds each item; which items it returns, in which order, is stated by Patterns.FindAllEmpty and Patterns.FindAllStep.
- Templates.Render: its contract states only when rendering raises; what it renders to is stated by Templates.RenderLit, Templates.RenderSlot and Templates.RenderConcat, and for the shipped templates by RenameInvoices.NamingFormatRenders and InvoiceTool.PresetsRender.
- RenameInvoices.InvoiceOf: its contract states the shape of each field only; the value of each field is stated by RenameInvoices.InvoiceOfSearches and RenameInvoices.InvoiceOfNames.
- RenameInvoices.Handle: it names files with the corrected naming (RenameInvoices.Target), not with line 141 as written; the code as written is RenameInvoices.TargetAsWritten (see Findings), and the two agree on the configured template.
- RenameInvoices.ChooseTarget: it runs the corrected naming of RenameInvoices.Target, building the suffixed names from the sanitised rendering, not line 141 as written (see Findings).
- Naming.Stem: its contract covers names without a dot and, through Naming.StemOfPdf, names `x.pdf`; other dotted names follow the body only.

## Findings

| source | as written | input that shows it | evidently intended | confidence | as-written member | corrected member |
|---|---|---|---|---|---|---|
| rename_invoices.py:141 | on a collision, the suffixed names are built from `naming_format.format(**info)` without removing the reserved characters that line 133 removed from the first name | a template with a reserved literal, e.g. `{date}:{seller}`, when the sanitised name `20230501京东.pdf` already exists: the loop tries `20230501:京东_1.pdf` | suffix names built from the sanitised rendering, so that every tried name is a valid file name | not executed | RenameInvoices.TargetAsWritten, RenameInvoices.AsWrittenKeepsReserved | RenameInvoices.Target |

The batch (`RenameInvoices.Handle`, `RenameInvoices.Rename`) uses the
corrected naming. `RenameInvoices.AsWrittenAgreesOnCleanTemplates` proves
that the two agree whenever the template's literals are clean, as in the
configured template, because no extracted value ever holds a reserved
character.
