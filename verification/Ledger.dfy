/** The running-balance ledger of `gen_bank_boa` in scripts/pdf_formats.py, in exact
    cents: the opening balance is worked back from the ending one, and the running
    balance is carried over the page break. */
module Ledger {
  import opened Wrappers

  const PAGE_SPLIT := 15

  datatype Txn = Txn(date: string, description: string, amount: int)

  /** A printed line of the ledger, and the height it is printed at. */
  datatype Row = Row(y: int, date: string, description: string, amount: int, balance: int)

  /** A page: its rows, and the ending balance stamped below them, if it is. */
  datatype Page = Page(rows: seq<Row>, stamp: Option<(int, int)>)

  function Sum(txns: seq<Txn>): int {
    if txns == [] then 0 else txns[0].amount + Sum(txns[1..])
  }

  lemma {:induction false} SumAppend(xs: seq<Txn>, ys: seq<Txn>)
    ensures Sum(xs + ys) == Sum(xs) + Sum(ys)
  {
    if xs == [] {
      assert xs + ys == ys;
    } else {
      assert (xs + ys)[1..] == xs[1..] + ys;
      SumAppend(xs[1..], ys);
    }
  }

  function FirstOf(txns: seq<Txn>): seq<Txn> {
    txns[..Min(PAGE_SPLIT, |txns|)]
  }

  function RestOf(txns: seq<Txn>): seq<Txn> {
    txns[Min(PAGE_SPLIT, |txns|)..]
  }

  function Short(s: string): string {
    if |s| <= 38 then s else s[..38]
  }

  /** Row `i` of a page that prints `txns`, when `after` is the sum of everything
      that comes after the page: the ending balance less all later amounts. */
  predicate Balanced(row: Row, txns: seq<Txn>, i: nat, endBalance: int, after: int)
    requires i < |txns|
  {
    row.y == 728 - 16 * i && Describes(row, txns[i]) && row.balance == endBalance - Sum(txns[i+1..]) - after
  }

  /** The date, the amount, and the first 38 characters of the description. */
  predicate Describes(row: Row, t: Txn) {
    row.date == t.date && row.amount == t.amount && row.description <= t.description &&
    |row.description| == Min(38, |t.description|)
  }

  /** The rows of one page; `running` is the balance before it. */
  method PrintPage(txns: seq<Txn>, start: int, endBalance: int, ghost after: int)
    returns (rows: seq<Row>, running: int, y: int)
    requires start == endBalance - Sum(txns) - after
    ensures |rows| == |txns| && forall i :: 0 <= i < |rows| ==> Balanced(rows[i], txns, i, endBalance, after)
    ensures running == endBalance - after && y == 728 - 16 * |txns|
  {
    rows, running, y := [], start, 728;
    for i := 0 to |txns|
      invariant |rows| == i && y == 728 - 16 * i && running == endBalance - Sum(txns[i..]) - after
      invariant forall j :: 0 <= j < i ==> Balanced(rows[j], txns, j, endBalance, after)
    {
      assert txns[i..][1..] == txns[i+1..];
      running := running + txns[i].amount;
      rows := rows + [Row(y, txns[i].date, Short(txns[i].description), txns[i].amount, running)];
      y := y - 16;
    }
  }

  /** Row `i` of the whole ledger: its place on its page, and the ending balance
      less the amounts of all later rows, on this page or the next. */
  predicate PrintedAt(row: Row, txns: seq<Txn>, i: nat, endBalance: int)
    requires i < |txns|
  {
    row.y == 728 - 16 * (if i < 15 then i else i - 15) && Describes(row, txns[i]) &&
    row.balance == endBalance - Sum(txns[i+1..])
  }

  lemma FirstPageRow(txns: seq<Txn>, i: nat, endBalance: int, row: Row)
    requires i < |FirstOf(txns)| && Balanced(row, FirstOf(txns), i, endBalance, Sum(RestOf(txns)))
    ensures PrintedAt(row, txns, i, endBalance)
  {
    var first, rest := FirstOf(txns), RestOf(txns);
    assert txns[i+1..] == first[i+1..] + rest;
    SumAppend(first[i+1..], rest);
  }

  lemma SecondPageRow(txns: seq<Txn>, i: nat, endBalance: int, row: Row)
    requires |FirstOf(txns)| <= i < |txns| && Balanced(row, RestOf(txns), i - |FirstOf(txns)|, endBalance, 0)
    ensures PrintedAt(row, txns, i, endBalance)
  {
    assert txns[i+1..] == RestOf(txns)[i - |FirstOf(txns)| + 1..];
  }

  method GenBankBoa(endBalance: int, txns: seq<Txn>) returns (pages: seq<Page>)
    ensures |pages| == 2 && pages[0].stamp == None
    // Every printed balance is the ending balance less the amounts printed later,
    // on this page or the next
    ensures |pages[0].rows| == Min(15, |txns|) && |pages[0].rows| + |pages[1].rows| == |txns|
    ensures forall i :: 0 <= i < |txns| ==> PrintedAt((pages[0].rows + pages[1].rows)[i], txns, i, endBalance)
    // The ending balance is stamped below the last row of the last page
    ensures pages[1].stamp == Some((728 - 16 * |pages[1].rows| - 12, endBalance))
  {
    var first, rest := FirstOf(txns), RestOf(txns);
    assert first + rest == txns;
    SumAppend(first, rest);
    var running, y, rows1, rows2;
    rows1, running, y := PrintPage(first, endBalance - Sum(txns), endBalance, Sum(rest));
    rows2, running, y := PrintPage(rest, running, endBalance, 0);
    pages := [Page(rows1, None), Page(rows2, Some((y - 12, endBalance)))];
    forall i | 0 <= i < |txns|
      ensures PrintedAt((rows1 + rows2)[i], txns, i, endBalance)
    {
      if i < |first| {
        FirstPageRow(txns, i, endBalance, rows1[i]);
      } else {
        SecondPageRow(txns, i, endBalance, rows2[i - |first|]);
      }
    }
  }
}
