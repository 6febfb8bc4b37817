/**
 Stock management: validating and adding codes one by one, in bulk and from
 pasted text; the per-type summary and its totals; and the low-stock alert.
 */
module Stock {
  import opened Wrappers
  import opened Text
  import opened Config
  import opened Store

  // ---------------------------------------------------------------------
  // Validation and single additions
  // ---------------------------------------------------------------------

  const MinCodeLength: nat := 5
  const MaxCodeLength: nat := 500

  datatype CodeCheck = CodeValid | EmptyCode | CodeTooShort | CodeTooLong

  /** `validate_stock_code`: the stripped code must have 5 to 500 characters. */
  function ValidateStockCode(code: string): (r: CodeCheck)
    ensures r.CodeValid? <==> MinCodeLength <= |Strip(code)| <= MaxCodeLength
    ensures r.EmptyCode? <==> |Strip(code)| == 0
    ensures r.CodeTooShort? <==> 0 < |Strip(code)| < MinCodeLength
    ensures r.CodeTooLong? <==> |Strip(code)| > MaxCodeLength
  {
    var c := Strip(code);
    if |c| == 0 then EmptyCode
    else if |c| < MinCodeLength then CodeTooShort
    else if |c| > MaxCodeLength then CodeTooLong
    else CodeValid
  }

  datatype AddError = EmptyCodeError | TooShortError | DatabaseError

  datatype AddResult = AddResult(success: bool, stockId: Option<nat>, error: Option<AddError>)

  /** The row `add_single_code` stores for a stripped code. */
  function StoredItem(cfg: Config, code: string, codeType: string, addedBy: Option<UserId>,
                      encrypt: string -> string): StockItem {
    var enc := cfg.encryptStockCodes;
    StockItem(if enc then encrypt(code) else code, codeType, enc, addedBy, true, None, None)
  }

  /** Why `add_single_code` refuses a code: blank after stripping, shorter
      than 5 characters, or an insert the storage layer did not confirm
      (`insertOk` false); None when the code is stored. */
  function RefusalReason(code: string, insertOk: bool): (r: Option<AddError>)
    ensures r == Some(EmptyCodeError) <==> |Strip(code)| == 0
    ensures r == Some(TooShortError) <==> 0 < |Strip(code)| < MinCodeLength
    ensures r == Some(DatabaseError) <==> |Strip(code)| >= MinCodeLength && !insertOk
  {
    var c := Strip(code);
    if |c| == 0 then Some(EmptyCodeError)
    else if |c| < MinCodeLength then Some(TooShortError)
    else if !insertOk then Some(DatabaseError)
    else None
  }

  /** Whether `add_single_code` stores the code. */
  predicate Accepts(code: string, insertOk: bool) {
    RefusalReason(code, insertOk).None?
  }

  /** A code is stored exactly when its stripped form has at least five
      characters and the insert is confirmed. */
  lemma AcceptsExactly(code: string, insertOk: bool)
    ensures Accepts(code, insertOk) <==> |Strip(code)| >= MinCodeLength && insertOk
  {
  }

  /** `add_single_code`: strips the code, rejects it when empty or shorter
      than 5 characters, encrypts it when configured (`encrypt` stands for
      the cipher) and inserts it; `insertOk` is the storage layer's answer. */
  function AddSingleCode(cfg: Config, s: Store, code: string, codeType: string, addedBy: Option<UserId>,
                         encrypt: string -> string, insertOk: bool): (r: (AddResult, Store))
    ensures r.0.success <==> |Strip(code)| >= MinCodeLength && insertOk
    ensures r.0.success ==>
      && r.0.stockId == Some(|s.stock|) && r.0.error.None?
      && r.1 == s.(stock := s.stock + [StoredItem(cfg, Strip(code), codeType, addedBy, encrypt)])
    ensures !r.0.success ==> r.1 == s && r.0.stockId.None? && r.0.error.Some?
    ensures r.0.error == Some(EmptyCodeError) <==> |Strip(code)| == 0
    ensures r.0.error == Some(TooShortError) <==> 0 < |Strip(code)| < MinCodeLength
    ensures r.0.error == Some(DatabaseError) <==> |Strip(code)| >= MinCodeLength && !insertOk
  {
    match RefusalReason(code, insertOk)
    case Some(err) => (AddResult(false, None, Some(err)), s)
    case None =>
      var item := StoredItem(cfg, Strip(code), codeType, addedBy, encrypt);
      var added := AddStockCode(s, item.code, codeType, addedBy, item.isEncrypted);
      (AddResult(true, Some(added.0), None), added.1)
  }

  /** Adding a code enforces only the lower bound of the validator: a code
      the validator rejects as too long is still stored. */
  lemma AddIgnoresUpperBound(cfg: Config, s: Store, code: string, codeType: string,
                             addedBy: Option<UserId>, encrypt: string -> string)
    ensures ValidateStockCode(code).CodeTooShort? || ValidateStockCode(code).EmptyCode?
            <==> !AddSingleCode(cfg, s, code, codeType, addedBy, encrypt, true).0.success
    ensures ValidateStockCode(code).CodeTooLong? ==>
            AddSingleCode(cfg, s, code, codeType, addedBy, encrypt, true).0.success
  {
  }

  /** The added row is immediately counted as free stock of its type. */
  lemma AddedCodeIsFree(cfg: Config, s: Store, code: string, codeType: string,
                        addedBy: Option<UserId>, encrypt: string -> string)
    requires AddSingleCode(cfg, s, code, codeType, addedBy, encrypt, true).0.success
    ensures CountFree(AddSingleCode(cfg, s, code, codeType, addedBy, encrypt, true).1.stock, codeType)
            == CountFree(s.stock, codeType) + 1
  {
    var item := StoredItem(cfg, Strip(code), codeType, addedBy, encrypt);
    CountFreeAppend(s.stock, codeType, item);
  }

  lemma {:induction false} CountFreeAppend(stock: seq<StockItem>, codeType: string, item: StockItem)
    ensures CountFree(stock + [item], codeType) == CountFree(stock, codeType) + (if IsFree(item, codeType) then 1 else 0)
    decreases |stock|
  {
    if |stock| == 0 {
      assert CountFree([item][1..], codeType) == 0;
    } else {
      assert (stock + [item])[1..] == stock[1..] + [item];
      CountFreeAppend(stock[1..], codeType, item);
    }
  }

  // ---------------------------------------------------------------------
  // Bulk additions
  // ---------------------------------------------------------------------

  /** What an upload fixes for all its codes: the configuration, the type
      and uploader recorded on each row, the cipher used when encryption is
      on, and the masking applied to a code shown in a report (the
      configured `mask_sensitive`, which `AddCodesFromText` passes). */
  datatype Upload = Upload(cfg: Config, codeType: string, addedBy: Option<UserId>,
                           encrypt: string -> string, mask: string -> string)

  /** One entry of the error list: a 1-based line, the masked code, the reason. */
  datatype LineError = LineError(line: nat, masked: string, reason: AddError)

  /** The bulk result; `note` carries the free-text error of an upload with
      no codes in it. */
  datatype BulkResult = BulkResult(success: bool, added: nat, failed: nat, errors: seq<LineError>,
                                   stockIds: seq<nat>, note: Option<string>)

  /** The running state of a bulk addition. */
  datatype BulkState = BulkState(added: nat, failed: nat, errors: seq<LineError>, ids: seq<nat>, store: Store)

  /** Adds the code on 1-based line `line` to the running state. */
  function BulkStep(u: Upload, prev: BulkState, code: string, line: nat, insertOk: bool): BulkState
  {
    var res := AddSingleCode(u.cfg, prev.store, code, u.codeType, u.addedBy, u.encrypt, insertOk);
    if res.0.success then
      prev.(added := prev.added + 1, ids := prev.ids + [res.0.stockId.value], store := res.1)
    else
      prev.(failed := prev.failed + 1,
            errors := prev.errors + [LineError(line, u.mask(code), res.0.error.value)])
  }

  /** The running state after the first `k` codes of the list. */
  function BulkRun(u: Upload, s: Store, codes: seq<string>, insertOk: nat -> bool, k: nat): BulkState
    requires k <= |codes|
    decreases k
  {
    if k == 0 then BulkState(0, 0, [], [], s)
    else BulkStep(u, BulkRun(u, s, codes, insertOk, k - 1), codes[k - 1], k, insertOk(k - 1))
  }

  /** Counting and storage after `k` codes: every code counted once, the
      accepted ones appended in order as free items of the requested type. */
  predicate RowsAfter(s: Store, b: BulkState, k: nat, codeType: string) {
    && b.added + b.failed == k && |b.ids| == b.added && |b.errors| == b.failed
    && b.store.balances == s.balances && b.store.orders == s.orders && b.store.topups == s.topups
    && |b.store.stock| == |s.stock| + b.added && b.store.stock[..|s.stock|] == s.stock
    && (forall i :: 0 <= i < |b.ids| ==> b.ids[i] == |s.stock| + i)
    && (forall j :: |s.stock| <= j < |b.store.stock| ==> IsFree(b.store.stock[j], codeType))
  }

  lemma RowsStep(u: Upload, s: Store, prev: BulkState, code: string, k: nat, insertOk: bool)
    requires RowsAfter(s, prev, k, u.codeType)
    ensures RowsAfter(s, BulkStep(u, prev, code, k + 1, insertOk), k + 1, u.codeType)
  {
    var res := AddSingleCode(u.cfg, prev.store, code, u.codeType, u.addedBy, u.encrypt, insertOk);
    if res.0.success {
      var before := prev.store.stock;
      var item := StoredItem(u.cfg, Strip(code), u.codeType, u.addedBy, u.encrypt);
      assert res.1.stock == before + [item];
      assert (before + [item])[..|s.stock|] == before[..|s.stock|];
    }
  }

  /** After any number of codes, every code is counted once and the
      accepted ones are stored in order as free items. */
  lemma {:induction false} BulkRows(u: Upload, s: Store, codes: seq<string>, insertOk: nat -> bool, k: nat)
    requires k <= |codes|
    ensures RowsAfter(s, BulkRun(u, s, codes, insertOk, k), k, u.codeType)
    decreases k
  {
    if k > 0 {
      BulkRows(u, s, codes, insertOk, k - 1);
      RowsStep(u, s, BulkRun(u, s, codes, insertOk, k - 1), codes[k - 1], k - 1, insertOk(k - 1));
    }
  }

  /** The error list a bulk addition should produce for the first `k`
      codes, independently of the store: one entry per refused code, in
      line order, with the masked code and the reason. */
  function RefusedLines(mask: string -> string, codes: seq<string>, insertOk: nat -> bool, k: nat): (e: seq<LineError>)
    requires k <= |codes|
    ensures |e| <= k
    decreases k
  {
    if k == 0 then []
    else
      var front := RefusedLines(mask, codes, insertOk, k - 1);
      match RefusalReason(codes[k - 1], insertOk(k - 1))
      case None => front
      case Some(why) => front + [LineError(k, mask(codes[k - 1]), why)]
  }

  /** The rows a bulk addition should append for the first `k` codes,
      independently of the running state: the stored form of each accepted
      code, in line order. */
  function AcceptedItems(u: Upload, codes: seq<string>, insertOk: nat -> bool, k: nat): (items: seq<StockItem>)
    requires k <= |codes|
    ensures |items| <= k
    decreases k
  {
    if k == 0 then []
    else
      var front := AcceptedItems(u, codes, insertOk, k - 1);
      if Accepts(codes[k - 1], insertOk(k - 1))
      then front + [StoredItem(u.cfg, Strip(codes[k - 1]), u.codeType, u.addedBy, u.encrypt)]
      else front
  }

  /** After any number of codes, the stock is the old stock followed by
      the accepted codes' rows. */
  lemma {:induction false} BulkStored(u: Upload, s: Store, codes: seq<string>, insertOk: nat -> bool, k: nat)
    requires k <= |codes|
    ensures BulkRun(u, s, codes, insertOk, k).store.stock == s.stock + AcceptedItems(u, codes, insertOk, k)
    decreases k
  {
    if k > 0 {
      BulkStored(u, s, codes, insertOk, k - 1);
    }
  }

  /** After any number of codes, the error list is the refused lines. */
  lemma {:induction false} BulkErrors(u: Upload, s: Store, codes: seq<string>, insertOk: nat -> bool, k: nat)
    requires k <= |codes|
    ensures BulkRun(u, s, codes, insertOk, k).errors == RefusedLines(u.mask, codes, insertOk, k)
    decreases k
  {
    if k > 0 {
      BulkErrors(u, s, codes, insertOk, k - 1);
    }
  }

  /** Entry `x` reports line `x.line` of `codes` correctly: the code there
      is refused for reason `x.reason` and is shown masked. */
  predicate ReportsLine(mask: string -> string, codes: seq<string>, insertOk: nat -> bool, x: LineError)
  {
    && 1 <= x.line <= |codes|
    && RefusalReason(codes[x.line - 1], insertOk(x.line - 1)) == Some(x.reason)
    && x.masked == mask(codes[x.line - 1])
  }

  /** Every entry reports a refused line among the first `k`, and the lines
      strictly increase, so no line is reported twice. */
  lemma {:induction false} RefusedLinesSound(mask: string -> string, codes: seq<string>, insertOk: nat -> bool, k: nat)
    requires k <= |codes|
    ensures forall i :: 0 <= i < |RefusedLines(mask, codes, insertOk, k)| ==>
      RefusedLines(mask, codes, insertOk, k)[i].line <= k
      && ReportsLine(mask, codes, insertOk, RefusedLines(mask, codes, insertOk, k)[i])
    ensures forall i, j :: 0 <= i < j < |RefusedLines(mask, codes, insertOk, k)| ==>
      RefusedLines(mask, codes, insertOk, k)[i].line < RefusedLines(mask, codes, insertOk, k)[j].line
    decreases k
  {
    if k > 0 {
      RefusedLinesSound(mask, codes, insertOk, k - 1);
      var front := RefusedLines(mask, codes, insertOk, k - 1);
      var e := RefusedLines(mask, codes, insertOk, k);
      if RefusalReason(codes[k - 1], insertOk(k - 1)).Some? {
        forall i | 0 <= i < |e|
          ensures e[i].line <= k && ReportsLine(mask, codes, insertOk, e[i])
        {
          if i < |front| {
            assert e[i] == front[i];
          }
        }
        forall i, j | 0 <= i < j < |e|
          ensures e[i].line < e[j].line
        {
          assert e[i] == front[i];
          if j < |front| {
            assert e[j] == front[j];
          }
        }
      }
    }
  }

  /** Every refused code among the first `k` is reported. */
  lemma {:induction false} RefusedLinesComplete(mask: string -> string, codes: seq<string>, insertOk: nat -> bool,
                                                k: nat, m: nat)
    requires m < k <= |codes| && !Accepts(codes[m], insertOk(m))
    ensures exists i :: 0 <= i < |RefusedLines(mask, codes, insertOk, k)|
                        && RefusedLines(mask, codes, insertOk, k)[i].line == m + 1
    decreases k
  {
    var front := RefusedLines(mask, codes, insertOk, k - 1);
    var e := RefusedLines(mask, codes, insertOk, k);
    if m < k - 1 {
      RefusedLinesComplete(mask, codes, insertOk, k - 1, m);
      var i :| 0 <= i < |front| && front[i].line == m + 1;
      assert e[i] == front[i];
    } else {
      assert e[|front|].line == k;
    }
  }

  /** `add_bulk_codes`: adds each code in turn, the k-th insert succeeding
      when `insertOk(k)`; counts successes and failures, collects the new
      ids, and records each failure with its 1-based line and masked code. */
  method AddBulkCodes(u: Upload, s: Store, codes: seq<string>, insertOk: nat -> bool)
    returns (r: BulkResult, store: Store)
    ensures r.added + r.failed == |codes|
    ensures r.success <==> r.failed == 0
    ensures |r.stockIds| == r.added && |r.errors| == r.failed
    ensures store.balances == s.balances && store.orders == s.orders && store.topups == s.topups
    ensures |store.stock| == |s.stock| + r.added && store.stock[..|s.stock|] == s.stock
    ensures forall i :: 0 <= i < |r.stockIds| ==> r.stockIds[i] == |s.stock| + i
    ensures forall j :: |s.stock| <= j < |store.stock| ==> IsFree(store.stock[j], u.codeType)
    ensures store.stock == s.stock + AcceptedItems(u, codes, insertOk, |codes|)
    ensures r.errors == RefusedLines(u.mask, codes, insertOk, |codes|)
  {
    var b := BulkState(0, 0, [], [], s);
    var k := 0;
    while k < |codes|
      invariant k <= |codes|
      invariant b == BulkRun(u, s, codes, insertOk, k)
    {
      b := BulkStep(u, b, codes[k], k + 1, insertOk(k));
      k := k + 1;
    }
    BulkRows(u, s, codes, insertOk, k);
    BulkErrors(u, s, codes, insertOk, k);
    BulkStored(u, s, codes, insertOk, k);
    r := BulkResult(b.failed == 0, b.added, b.failed, b.errors, b.ids, None);
    store := b.store;
  }

  // ---------------------------------------------------------------------
  // Codes from pasted text
  // ---------------------------------------------------------------------

  /** A line that holds a code: not blank once stripped, and not a comment. */
  predicate IsCodeLine(line: string) {
    |Strip(line)| > 0 && Strip(line)[0] != '#'
  }

  /** Keeps the stripped lines that are neither blank nor comments: every
      kept code is clean, and every code line is kept. */
  function KeepCodes(lines: seq<string>): (codes: seq<string>)
    ensures |codes| <= |lines|
    ensures forall i :: 0 <= i < |codes| ==>
      |codes[i]| > 0 && codes[i][0] != '#' && Strip(codes[i]) == codes[i]
    ensures forall i :: 0 <= i < |lines| && IsCodeLine(lines[i]) ==> Strip(lines[i]) in codes
    decreases |lines|
  {
    if |lines| == 0 then []
    else
      var c := Strip(lines[0]);
      var rest := KeepCodes(lines[1..]);
      assert forall i :: 1 <= i < |lines| ==> lines[i] == lines[1..][i - 1];
      if |c| == 0 || c[0] == '#' then rest
      else
        StripIdempotent(lines[0]);
        [c] + rest
  }

  /** Keeping codes works line by line and keeps the order: the codes of
      two blocks of lines are those of the first block followed by those of
      the second, and a single line contributes its stripped form exactly
      when it is a code line. */
  lemma {:induction false} KeepCodesInOrder(a: seq<string>, b: seq<string>)
    ensures KeepCodes(a + b) == KeepCodes(a) + KeepCodes(b)
    ensures |a| == 1 ==> KeepCodes(a) == (if IsCodeLine(a[0]) then [Strip(a[0])] else [])
    decreases |a|
  {
    if |a| > 0 {
      assert (a + b)[1..] == a[1..] + b;
      KeepCodesInOrder(a[1..], b);
      if |a| == 1 {
        assert a[1..] == [];
      }
    } else {
      assert a + b == b;
    }
  }

  /** The code list `add_codes_from_text` reads out of an upload: the whole
      text stripped and split into lines, each line stripped, blank lines
      and lines starting with `#` dropped; every code line of the upload is
      kept (in order, by `KeepCodesInOrder`). */
  function ParseCodeLines(text: string): (codes: seq<string>)
    ensures forall i :: 0 <= i < |codes| ==>
      |codes[i]| > 0 && codes[i][0] != '#' && Strip(codes[i]) == codes[i]
    ensures forall l :: l in Split(Strip(text), '\n') && IsCodeLine(l) ==> Strip(l) in codes
  {
    KeepCodes(Split(Strip(text), '\n'))
  }

  /** A list of clean codes written one per line is read back as itself. */
  lemma ParseJoinedCodes(codes: seq<string>)
    requires |codes| >= 1
    requires forall i :: 0 <= i < |codes| ==>
      && |codes[i]| > 0 && codes[i][0] != '#' && '\n' !in codes[i]
      && !IsSpace(codes[i][0]) && !IsSpace(codes[i][|codes[i]| - 1])
    ensures ParseCodeLines(Join(codes, '\n')) == codes
  {
    var text := Join(codes, '\n');
    JoinEnds(codes, '\n');
    StripUnchanged(text);
    SplitJoin(codes, '\n');
    KeepClean(codes);
  }

  lemma {:induction false} JoinEnds(parts: seq<string>, sep: char)
    requires |parts| >= 1 && forall i :: 0 <= i < |parts| ==> |parts[i]| > 0
    ensures var j := Join(parts, sep);
      |j| > 0 && j[0] == parts[0][0] && j[|j| - 1] == parts[|parts| - 1][|parts[|parts| - 1]| - 1]
    decreases |parts|
  {
    if |parts| > 1 {
      JoinEnds(parts[1..], sep);
    }
  }

  lemma {:induction false} KeepClean(codes: seq<string>)
    requires forall i :: 0 <= i < |codes| ==>
      && |codes[i]| > 0 && codes[i][0] != '#'
      && !IsSpace(codes[i][0]) && !IsSpace(codes[i][|codes[i]| - 1])
    ensures KeepCodes(codes) == codes
    decreases |codes|
  {
    if |codes| > 0 {
      StripUnchanged(codes[0]);
      KeepClean(codes[1..]);
    }
  }

  const NoValidCodes: string := "No valid codes found"

  /** The upload `add_codes_from_text` hands to `add_bulk_codes`: refused
      codes are shown through the configured `mask_sensitive`, as written. */
  function TextUpload(cfg: Config, codeType: string, addedBy: Option<UserId>,
                      encrypt: string -> string): Upload {
    Upload(cfg, codeType, addedBy, encrypt, c => MaskSensitive(cfg, c, None))
  }

  /** `add_codes_from_text`: an upload with no code in it is refused with
      nothing added; otherwise the parsed codes are added in bulk, and the
      upload succeeds exactly when no code was refused. */
  method AddCodesFromText(cfg: Config, s: Store, text: string, codeType: string, addedBy: Option<UserId>,
                          encrypt: string -> string, insertOk: nat -> bool)
    returns (r: BulkResult, store: Store)
    ensures |ParseCodeLines(text)| == 0 ==>
      r == BulkResult(false, 0, 0, [], [], Some(NoValidCodes)) && store == s
    ensures r.added + r.failed == |ParseCodeLines(text)|
    ensures r.success ==> r.failed == 0 && r.added > 0
    ensures |ParseCodeLines(text)| > 0 ==> (r.success <==> r.failed == 0)
    ensures |store.stock| == |s.stock| + r.added && store.stock[..|s.stock|] == s.stock
    ensures |ParseCodeLines(text)| > 0 ==>
      var u := TextUpload(cfg, codeType, addedBy, encrypt);
      var codes := ParseCodeLines(text);
      && store.stock == s.stock + AcceptedItems(u, codes, insertOk, |codes|)
      && r.errors == RefusedLines(u.mask, codes, insertOk, |codes|)
  {
    var codes := ParseCodeLines(text);
    if |codes| == 0 {
      r, store := BulkResult(false, 0, 0, [], [], Some(NoValidCodes)), s;
    } else {
      r, store := AddBulkCodes(TextUpload(cfg, codeType, addedBy, encrypt), s, codes, insertOk);
    }
  }

  /** With masking on and a show count of 0, every code an upload refuses
      is reported in full, behind four stars. */
  lemma TextUploadErrorsShowCodes(cfg: Config, text: string, codeType: string, addedBy: Option<UserId>,
                                  encrypt: string -> string, insertOk: nat -> bool)
    requires cfg.maskingEnabled && cfg.maskShowCharacters == 0
    ensures var codes := ParseCodeLines(text);
      var e := RefusedLines(TextUpload(cfg, codeType, addedBy, encrypt).mask, codes, insertOk, |codes|);
      forall i :: 0 <= i < |e| ==> 1 <= e[i].line <= |codes| && e[i].masked == Stars + codes[e[i].line - 1]
  {
    var codes := ParseCodeLines(text);
    var mask := TextUpload(cfg, codeType, addedBy, encrypt).mask;
    RefusedLinesSound(mask, codes, insertOk, |codes|);
  }

  // ---------------------------------------------------------------------
  // Summary and statistics
  // ---------------------------------------------------------------------

  /** The four counters of a summary row. The categories overlap: a
      delivered item keeps its reservation, so it is both reserved and used. */
  datatype Counts = Counts(total: int, available: int, reserved: int, used: int)

  const Zero: Counts := Counts(0, 0, 0, 0)

  function Plus(a: Counts, b: Counts): Counts {
    Counts(a.total + b.total, a.available + b.available, a.reserved + b.reserved, a.used + b.used)
  }

  lemma PlusSwap(a: Counts, b: Counts, c: Counts)
    ensures Plus(Plus(a, b), c) == Plus(Plus(a, c), b)
  {
  }

  /** The counters one item contributes. */
  function ItemCounts(item: StockItem): Counts {
    Counts(1,
           if item.isAvailable && item.reservedFor.None? then 1 else 0,
           if item.reservedFor.Some? then 1 else 0,
           if !item.isAvailable then 1 else 0)
  }

  /** The counters over the items of one type, or of every type when `only`
      is None: the reference the summary is checked against. */
  function Tally(stock: seq<StockItem>, only: Option<string>): Counts
    decreases |stock|
  {
    if |stock| == 0 then Zero
    else
      var last := stock[|stock| - 1];
      var rest := Tally(stock[..|stock| - 1], only);
      if only.None? || only.value == last.codeType then Plus(rest, ItemCounts(last)) else rest
  }

  /** Every item falls in at least one category, and an available item in
      no other. */
  lemma {:induction false} TallyBounds(stock: seq<StockItem>, only: Option<string>)
    ensures var c := Tally(stock, only);
      0 <= c.available && 0 <= c.reserved && 0 <= c.used
      && c.available + c.reserved <= c.total && c.available + c.used <= c.total
      && c.total <= c.available + c.reserved + c.used
    decreases |stock|
  {
    if |stock| > 0 {
      TallyBounds(stock[..|stock| - 1], only);
    }
  }

  /** The code types present in the stock table. */
  function TypeSet(stock: seq<StockItem>): set<string>
    decreases |stock|
  {
    if |stock| == 0 then {} else TypeSet(stock[..|stock| - 1]) + {stock[|stock| - 1].codeType}
  }

  /** A type is present exactly when some item carries it. */
  lemma {:induction false} TypeSetMembers(stock: seq<StockItem>, t: string)
    ensures t in TypeSet(stock) <==> exists i :: 0 <= i < |stock| && stock[i].codeType == t
    decreases |stock|
  {
    if |stock| > 0 {
      var front := stock[..|stock| - 1];
      TypeSetMembers(front, t);
      if t in TypeSet(front) {
        var i :| 0 <= i < |front| && front[i].codeType == t;
        assert stock[i] == front[i];
      }
      if exists i :: 0 <= i < |stock| && stock[i].codeType == t {
        var i :| 0 <= i < |stock| && stock[i].codeType == t;
        if i < |front| {
          assert front[i] == stock[i];
        }
      }
    }
  }

  /** A type with no item has all counters zero. */
  lemma {:induction false} TallyAbsent(stock: seq<StockItem>, t: string)
    requires t !in TypeSet(stock)
    ensures Tally(stock, Some(t)) == Zero
    decreases |stock|
  {
    if |stock| > 0 {
      TallyAbsent(stock[..|stock| - 1], t);
    }
  }

  /** `get_stock_summary`: the counters of each code type present in the
      stock table, as the SQL GROUP BY computes them. */
  function StockSummary(stock: seq<StockItem>): (m: map<string, Counts>)
    ensures m.Keys == TypeSet(stock)
    ensures forall t :: t in m ==> m[t] == Tally(stock, Some(t))
    decreases |stock|
  {
    if |stock| == 0 then map[]
    else
      var front := stock[..|stock| - 1];
      var last := stock[|stock| - 1];
      var m := StockSummary(front);
      var t := last.codeType;
      if t in m then m[t := Plus(m[t], ItemCounts(last))]
      else
        TallyAbsent(front, t);
        m[t := ItemCounts(last)]
  }

  /** No element of `ts` occurs twice. */
  predicate NoRepeats(ts: seq<string>)
    decreases |ts|
  {
    |ts| == 0 || (NoRepeats(ts[..|ts| - 1]) && ts[|ts| - 1] !in ts[..|ts| - 1])
  }

  /** The code types of the stock table, each once, in order of first
      appearance. */
  function TypesOf(stock: seq<StockItem>): (ts: seq<string>)
    ensures forall t :: t in ts <==> t in TypeSet(stock)
    ensures NoRepeats(ts)
    decreases |stock|
  {
    if |stock| == 0 then []
    else
      var ts := TypesOf(stock[..|stock| - 1]);
      var t := stock[|stock| - 1].codeType;
      if t in ts then ts else ts + [t]
  }

  /** The sum of the rows of `m` named in `ts`. */
  function SumRows(m: map<string, Counts>, ts: seq<string>): Counts
    requires forall i :: 0 <= i < |ts| ==> ts[i] in m
    decreases |ts|
  {
    if |ts| == 0 then Zero else Plus(SumRows(m, ts[..|ts| - 1]), m[ts[|ts| - 1]])
  }

  /** The sum of the per-type tallies of the types in `ts`. */
  function SumTallies(stock: seq<StockItem>, ts: seq<string>): Counts
    decreases |ts|
  {
    if |ts| == 0 then Zero else Plus(SumTallies(stock, ts[..|ts| - 1]), Tally(stock, Some(ts[|ts| - 1])))
  }

  lemma {:induction false} SumRowsTallies(m: map<string, Counts>, stock: seq<StockItem>, ts: seq<string>)
    requires forall i :: 0 <= i < |ts| ==> ts[i] in m && m[ts[i]] == Tally(stock, Some(ts[i]))
    ensures SumRows(m, ts) == SumTallies(stock, ts)
    decreases |ts|
  {
    if |ts| > 0 {
      SumRowsTallies(m, stock, ts[..|ts| - 1]);
    }
  }

  /** The last item adds its counters to the sum over distinct types exactly
      when its type is among them. */
  lemma {:induction false} SumTalliesLast(stock: seq<StockItem>, ts: seq<string>)
    requires |stock| > 0
    requires NoRepeats(ts)
    ensures var x := stock[|stock| - 1];
      SumTallies(stock, ts)
      == Plus(SumTallies(stock[..|stock| - 1], ts), if x.codeType in ts then ItemCounts(x) else Zero)
    decreases |ts|
  {
    if |ts| > 0 {
      var x := stock[|stock| - 1];
      var front := ts[..|ts| - 1];
      var l := ts[|ts| - 1];
      assert ts == front + [l];
      SumTalliesLast(stock, front);
      if x.codeType in front {
        PlusSwap(SumTallies(stock[..|stock| - 1], front), ItemCounts(x), Tally(stock[..|stock| - 1], Some(l)));
      }
    }
  }

  /** The totals of the summary are the counters over the whole table. */
  lemma {:induction false} SummaryTotals(stock: seq<StockItem>)
    ensures forall i :: 0 <= i < |TypesOf(stock)| ==> TypesOf(stock)[i] in StockSummary(stock)
    ensures SumRows(StockSummary(stock), TypesOf(stock)) == Tally(stock, None)
    decreases |stock|
  {
    var m := StockSummary(stock);
    var ts := TypesOf(stock);
    SumRowsTallies(m, stock, ts);
    TypesTally(stock);
  }

  /** Summing the per-type tallies over the types present gives the tally
      over the whole table. */
  lemma {:induction false} TypesTally(stock: seq<StockItem>)
    ensures SumTallies(stock, TypesOf(stock)) == Tally(stock, None)
    decreases |stock|
  {
    if |stock| > 0 {
      var front := stock[..|stock| - 1];
      var x := stock[|stock| - 1];
      var ts := TypesOf(front);
      TypesTally(front);
      SumTalliesLast(stock, ts);
      if x.codeType !in ts {
        TallyAbsent(front, x.codeType);
      }
    }
  }

  datatype StockStatus = Healthy | Low

  /** `get_detailed_stock_stats`, without the utilisation percentage. */
  datatype DetailedStats = DetailedStats(byType: map<string, Counts>, totals: Counts,
                                         status: StockStatus, lowStock: bool)

  /** `get_detailed_stock_stats`: the summary, its totals, a status that is
      healthy above the low-stock threshold, and a low-stock flag below it. */
  function GetDetailedStats(cfg: Config, stock: seq<StockItem>): (r: DetailedStats)
    ensures r.byType == StockSummary(stock)
    ensures r.totals == Tally(stock, None)
    ensures r.status == Healthy <==> Tally(stock, None).available > cfg.lowStockThreshold
    ensures r.lowStock <==> Tally(stock, None).available < cfg.lowStockThreshold
  {
    var summary := StockSummary(stock);
    SummaryTotals(stock);
    var totals := SumRows(summary, TypesOf(stock));
    DetailedStats(summary, totals,
                  if totals.available > cfg.lowStockThreshold then Healthy else Low,
                  totals.available < cfg.lowStockThreshold)
  }

  /** With exactly the threshold available, the status says low while the
      low-stock flag says no: the two use different comparisons. */
  lemma StatusAtThreshold(cfg: Config, stock: seq<StockItem>)
    requires Tally(stock, None).available == cfg.lowStockThreshold
    ensures GetDetailedStats(cfg, stock).status == Low
    ensures !GetDetailedStats(cfg, stock).lowStock
  {
  }

  /** The free count of a type is the available counter of its summary row. */
  lemma {:induction false} CountFreeIsAvailable(stock: seq<StockItem>, codeType: string)
    ensures CountFree(stock, codeType) == Tally(stock, Some(codeType)).available
    decreases |stock|
  {
    if |stock| > 0 {
      var front := stock[..|stock| - 1];
      var x := stock[|stock| - 1];
      assert front + [x] == stock;
      calc {
        CountFree(stock, codeType);
        { CountFreeAppend(front, codeType, x); }
        CountFree(front, codeType) + (if IsFree(x, codeType) then 1 else 0);
        { CountFreeIsAvailable(front, codeType); }
        Tally(front, Some(codeType)).available + (if IsFree(x, codeType) then 1 else 0);
      }
    }
  }

  datatype Alert = Alert(alert: bool, available: nat, threshold: int, message: Option<string>)

  /** `check_stock_alert(code_type)`: alerts, with a message naming the count
      and the type, when alerts are enabled and fewer than the threshold are
      free. */
  function CheckStockAlert(cfg: Config, stock: seq<StockItem>, codeType: string): (r: Alert)
    ensures r.available == Tally(stock, Some(codeType)).available
    ensures r.alert <==> cfg.stockAlertEnabled && Tally(stock, Some(codeType)).available < cfg.lowStockThreshold
    ensures r.message.Some? <==> r.alert
    ensures r.threshold == cfg.lowStockThreshold
  {
    var available := CountFree(stock, codeType);
    CountFreeIsAvailable(stock, codeType);
    if cfg.stockAlertEnabled && available < cfg.lowStockThreshold then
      Alert(true, available, cfg.lowStockThreshold,
            Some("Low stock: Only " + NatToString(available) + " " + codeType + " codes left!"))
    else Alert(false, available, cfg.lowStockThreshold, None)
  }
}
