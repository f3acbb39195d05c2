/** The statement: pages of a wallet's ledger, newest first, read one after another while calls go on
    committing. Each row shows the balance before it, derived from the row alone. */
module Statement {
  import opened Rows
  import opened Store
  import opened System
  import opened Ledger
  import opened Growth
  import opened Runs

  lemma ReachableLedger(env: Env, s: State)
    requires Reachable(env, s)
    ensures LedgerInv(s)
  {
    ReachableInv(env, s);
  }

  datatype EntryView = EntryView(entry: Entry, balanceBefore: int)

  function NewLedgerEntryView(e: Entry): EntryView { EntryView(e, e.balanceAfter - e.amount) }

  predicate IsBelow(sk: SortKey, start: Option<SortKey>) { start.None? || sk.ts < start.value.ts }

  predicate RowOf(ledger: map<LedgerKey, Entry>, w: WalletId, e: Entry) {
    LedgerKey(w, e.sk) in ledger && ledger[LedgerKey(w, e.sk)] == e
  }

  predicate Descending(page: seq<Entry>) {
    forall i, j :: 0 <= i < j < |page| ==> page[j].sk.ts < page[i].sk.ts
  }

  ghost predicate Covered(page: seq<Entry>, more: bool, e: Entry) {
    e in page || (more && page != [] && forall i :: 0 <= i < |page| ==> e.sk.ts < page[i].sk.ts)
  }

  /** What the table's backward query answers: rows of the wallet older than the start key, newest first,
      at most `limit` of them, none skipped; `more` says older rows may remain. */
  ghost predicate IsPage(ledger: map<LedgerKey, Entry>, w: WalletId, start: Option<SortKey>, limit: nat, page: seq<Entry>,
      more: bool) {
    && |page| <= limit && Descending(page)
    && (forall i :: 0 <= i < |page| ==> RowOf(ledger, w, page[i]) && IsBelow(page[i].sk, start))
    && (forall e :: RowOf(ledger, w, e) && IsBelow(e.sk, start) ==> Covered(page, more, e))
  }

  /** How many of a wallet's entries are older than the start key. */
  ghost function Older(h: seq<Entry>, start: Option<SortKey>): nat {
    if h == [] then 0 else if IsBelow(h[|h| - 1].sk, start) then |h| else Older(h[..|h| - 1], start)
  }

  lemma {:induction false} OlderSplits(h: seq<Entry>, start: Option<SortKey>)
    requires InCommitOrder(h)
    ensures Older(h, start) <= |h|
    ensures forall i :: 0 <= i < |h| ==> (i < Older(h, start) <==> IsBelow(h[i].sk, start))
  {
    if h != [] && !IsBelow(h[|h| - 1].sk, start) {
      var rest := h[..|h| - 1];
      assert forall i :: 0 <= i < |rest| ==> rest[i] == h[i];
      OlderSplits(rest, start);
    }
  }

  lemma {:induction false} OlderIs(h: seq<Entry>, start: Option<SortKey>, n: nat)
    requires n <= |h| && forall i :: 0 <= i < |h| ==> (IsBelow(h[i].sk, start) <==> i < n)
    ensures Older(h, start) == n
  {
    if h != [] && !IsBelow(h[|h| - 1].sk, start) {
      OlderIs(h[..|h| - 1], start, n);
    }
  }

  /** The rows of a wallet are the entries of its history, and only those. */
  lemma RowsAreEntries(s: State, w: WalletId, e: Entry)
    requires LedgerInv(s) && w in s.hist
    ensures RowOf(s.db.ledger, w, e) <==> e in s.hist[w]
  {
    if RowOf(s.db.ledger, w, e) {
      assert LedgerRowOk(s, LedgerKey(w, e.sk));
    }
    if e in s.hist[w] {
      var i :| 0 <= i < |s.hist[w]| && s.hist[w][i] == e;
      assert EntryOk(s, w, i);
    }
  }

  /** The first k rows of a page are the newest entries older than the start key, newest first. */
  ghost predicate RowsUpTo(h: seq<Entry>, start: Option<SortKey>, page: seq<Entry>, k: nat) {
    k <= |page| && k <= Older(h, start) <= |h| && forall l :: 0 <= l < k ==> page[l] == h[Older(h, start) - 1 - l]
  }

  /** If the rows before the k-th are the newest ones, the k-th is not newer than the next in line. */
  lemma NotNewer(s: State, w: WalletId, start: Option<SortKey>, limit: nat, page: seq<Entry>, more: bool, k: nat) returns (m: nat)
    requires LedgerInv(s) && w in s.hist && IsPage(s.db.ledger, w, start, limit, page, more) && k < |page|
        && RowsUpTo(s.hist[w], start, page, k)
    ensures m < |s.hist[w]| && s.hist[w][m] == page[k] && m + k < Older(s.hist[w], start)
  {
    var h := s.hist[w];
    assert InCommitOrder(h);
    OlderSplits(h, start);
    RowsAreEntries(s, w, page[k]);
    m :| 0 <= m < |h| && h[m] == page[k];
    if k > 0 {
      assert page[k - 1] == h[Older(h, start) - k];
    }
  }

  lemma NextInLine(h: seq<Entry>, start: Option<SortKey>, page: seq<Entry>, k: nat, m: nat, l: nat)
    requires InCommitOrder(h) && Descending(page) && RowsUpTo(h, start, page, k) && k < |page| && l < |page|
    requires m < |h| && m + k < Older(h, start) && h[m] == page[k] && page[l] == h[Older(h, start) - 1 - k]
    ensures l == k
  {
    var next := Older(h, start) - 1 - k;
    assert m <= next && h[m].sk.ts <= h[next].sk.ts;
    forall i | 0 <= i < k ensures h[next].sk.ts < page[i].sk.ts {
      assert page[i] == h[Older(h, start) - 1 - i];
    }
  }

  lemma RowNext(s: State, w: WalletId, start: Option<SortKey>, limit: nat, page: seq<Entry>, more: bool, k: nat)
    requires LedgerInv(s) && w in s.hist && IsPage(s.db.ledger, w, start, limit, page, more) && k < |page|
        && RowsUpTo(s.hist[w], start, page, k)
    ensures RowsUpTo(s.hist[w], start, page, k + 1)
  {
    var h := s.hist[w];
    var m := NotNewer(s, w, start, limit, page, more, k);
    var l := IsOnPage(s, w, start, limit, page, more, k, m);
    assert InCommitOrder(h);
    NextInLine(h, start, page, k, m, l);
  }

  /** The next entry in line is not older than a row of the page, so the page shows it. */
  lemma IsOnPage(s: State, w: WalletId, start: Option<SortKey>, limit: nat, page: seq<Entry>, more: bool, k: nat,
      m: nat) returns (l: nat)
    requires LedgerInv(s) && w in s.hist && IsPage(s.db.ledger, w, start, limit, page, more) && k < |page|
    requires m + k < Older(s.hist[w], start) <= |s.hist[w]| && s.hist[w][m] == page[k]
    ensures l < |page| && page[l] == s.hist[w][Older(s.hist[w], start) - 1 - k]
  {
    var h := s.hist[w];
    assert InCommitOrder(h);
    OlderSplits(h, start);
    var r := h[Older(h, start) - 1 - k];
    RowsAreEntries(s, w, r);
    IsShown(s.db.ledger, w, start, limit, page, more, r);
    assert page[k].sk.ts <= r.sk.ts;
    l :| 0 <= l < |page| && page[l] == r;
  }

  lemma {:induction false} FirstRows(s: State, w: WalletId, start: Option<SortKey>, limit: nat, page: seq<Entry>,
      more: bool, k: nat)
    requires LedgerInv(s) && w in s.hist && IsPage(s.db.ledger, w, start, limit, page, more) && k <= |page|
    ensures RowsUpTo(s.hist[w], start, page, k)
    decreases k
  {
    if k == 0 {
      assert InCommitOrder(s.hist[w]);
      OlderSplits(s.hist[w], start);
    } else {
      FirstRows(s, w, start, limit, page, more, k - 1);
      RowNext(s, w, start, limit, page, more, k - 1);
    }
  }

  /** A run of a history read backwards, from the newest entry older than the start key. */
  ghost predicate IsSlice(h: seq<Entry>, start: Option<SortKey>, page: seq<Entry>) {
    |page| <= Older(h, start) <= |h| && forall k :: 0 <= k < |page| ==> page[k] == h[Older(h, start) - 1 - k]
  }

  /** A page is a slice of the wallet's history, the whole of it when nothing more remains. */
  lemma PageIsSlice(s: State, w: WalletId, start: Option<SortKey>, limit: nat, page: seq<Entry>, more: bool)
    requires LedgerInv(s) && w in s.hist && IsPage(s.db.ledger, w, start, limit, page, more)
    ensures IsSlice(s.hist[w], start, page) && (!more ==> |page| == Older(s.hist[w], start))
  {
    FirstRows(s, w, start, limit, page, more, |page|);
    if !more {
      NothingLeft(s, w, start, limit, page);
    }
  }

  lemma NothingLeft(s: State, w: WalletId, start: Option<SortKey>, limit: nat, page: seq<Entry>)
    requires LedgerInv(s) && w in s.hist && IsPage(s.db.ledger, w, start, limit, page, false) && IsSlice(s.hist[w], start, page)
    ensures |page| == Older(s.hist[w], start)
  {
    var h := s.hist[w];
    assert InCommitOrder(h);
    OlderSplits(h, start);
    if |page| < Older(h, start) {
      var e := h[Older(h, start) - 1 - |page|];
      RowsAreEntries(s, w, e);
      IsShown(s.db.ledger, w, start, limit, page, false, e);
    }
  }

  lemma IsShown(ledger: map<LedgerKey, Entry>, w: WalletId, start: Option<SortKey>, limit: nat, page: seq<Entry>,
      more: bool, e: Entry)
    requires IsPage(ledger, w, start, limit, page, more) && RowOf(ledger, w, e) && IsBelow(e.sk, start)
    ensures Covered(page, more, e)
  {
  }

  lemma SliceIsPage(s: State, w: WalletId, start: Option<SortKey>, limit: nat, page: seq<Entry>, more: bool)
    requires LedgerInv(s) && w in s.hist && IsSlice(s.hist[w], start, page) && |page| <= limit
    requires if more then page != [] else |page| == Older(s.hist[w], start)
    ensures IsPage(s.db.ledger, w, start, limit, page, more)
  {
    var h := s.hist[w];
    assert InCommitOrder(h);
    OlderSplits(h, start);
    forall i | 0 <= i < |page| ensures RowOf(s.db.ledger, w, page[i]) {
      RowsAreEntries(s, w, page[i]);
    }
    forall e | RowOf(s.db.ledger, w, e) && IsBelow(e.sk, start) ensures Covered(page, more, e) {
      RowsAreEntries(s, w, e);
      var m :| 0 <= m < |h| && h[m] == e;
      if m >= Older(h, start) - |page| {
        assert page[Older(h, start) - 1 - m] == e;
      }
    }
  }

  /** One history is an earlier state of the other. */
  predicate SameHistory(h: seq<Entry>, h': seq<Entry>) { h <= h' || h' <= h }

  /** A history read on from the last row of a slice continues that slice, even if it has grown since, and even if it
      is an older state that still holds everything below that row. */
  lemma SlicesJoin(h: seq<Entry>, h': seq<Entry>, start: Option<SortKey>, first: seq<Entry>, second: seq<Entry>)
    requires InCommitOrder(h) && InCommitOrder(h') && SameHistory(h, h') && first != [] && IsSlice(h, start, first)
    requires Older(h, start) - |first| <= |h'| && IsSlice(h', Some(first[|first| - 1].sk), second)
    ensures Older(h', Some(first[|first| - 1].sk)) == Older(h, start) - |first|
    ensures IsSlice(h, start, first + second)
  {
    hide InCommitOrder, SameHistory;
    var n, next := Older(h, start) - |first|, Some(first[|first| - 1].sk);
    OlderThanLast(h, h', start, first);
    assert |second| <= n;
    forall k | 0 <= k < |second| ensures second[k] == h[n - 1 - k] {
      SamePrefix(h, h', n - 1 - k);
    }
    SliceGrows(h, start, first, second, n);
  }

  lemma SamePrefix(h: seq<Entry>, h': seq<Entry>, i: nat)
    requires SameHistory(h, h') && i < |h| && i < |h'|
    ensures h'[i] == h[i]
  {
  }

  lemma SliceGrows(h: seq<Entry>, start: Option<SortKey>, first: seq<Entry>, second: seq<Entry>, n: nat)
    requires IsSlice(h, start, first) && n == Older(h, start) - |first| && |second| <= n
    requires forall k :: 0 <= k < |second| ==> second[k] == h[n - 1 - k]
    ensures IsSlice(h, start, first + second)
  {
    forall k | 0 <= k < |first + second| ensures (first + second)[k] == h[Older(h, start) - 1 - k] {
      if k >= |first| {
        assert second[k - |first|] == h[n - 1 - (k - |first|)];
      }
    }
  }

  lemma OlderThanLast(h: seq<Entry>, h': seq<Entry>, start: Option<SortKey>, first: seq<Entry>)
    requires InCommitOrder(h) && InCommitOrder(h') && SameHistory(h, h') && first != [] && IsSlice(h, start, first)
    requires Older(h, start) - |first| <= |h'|
    ensures Older(h', Some(first[|first| - 1].sk)) == Older(h, start) - |first|
  {
    hide SameHistory, Older;
    var n := Older(h, start) - |first|;
    assert h[n] == first[|first| - 1];
    forall i | 0 <= i < |h'| ensures IsBelow(h'[i].sk, Some(h[n].sk)) <==> i < n {
      if n < |h'| {
        SamePrefix(h, h', n);
      } else {
        SamePrefix(h, h', i);
      }
    }
    OlderIs(h', Some(h[n].sk), n);
  }

  lemma BalanceBeforeIsTotal(s: State, w: WalletId, n: nat)
    requires LedgerInv(s) && w in s.hist && n < |s.hist[w]|
    ensures NewLedgerEntryView(s.hist[w][n]).balanceBefore == Total(s.hist[w][..n])
    ensures n > 0 ==> s.hist[w][n - 1].balanceAfter == Total(s.hist[w][..n])
  {
    assert EntryOk(s, w, n);
    assert s.hist[w][..n + 1][..n] == s.hist[w][..n];
    if n > 0 {
      assert EntryOk(s, w, n - 1);
    }
  }

  /** Within a page each row's balance before is the next older row's balance after. */
  lemma RowsChain(env: Env, s: State, w: WalletId, start: Option<SortKey>, limit: nat, page: seq<Entry>, more: bool, k: nat)
    requires Reachable(env, s) && w in s.hist && IsPage(s.db.ledger, w, start, limit, page, more) && k + 1 < |page|
    ensures NewLedgerEntryView(page[k]).balanceBefore == page[k + 1].balanceAfter
  {
    ReachableLedger(env, s);
    PageIsSlice(s, w, start, limit, page, more);
    BalanceBeforeIsTotal(s, w, Older(s.hist[w], start) - 1 - k);
  }

  /** The second state still holds everything below the last row the first page showed. A later state always does; an
      older one, from a replica that lags, may not. */
  ghost predicate ReachesBack(s: State, s': State, w: WalletId, start: Option<SortKey>, first: seq<Entry>) {
    Older(HistoryOf(s, w), start) - |first| <= |HistoryOf(s', w)|
  }

  /** Pages read at different times join into the one page a single query would have given at the first
      read: nothing skipped, nothing repeated, however much was committed in between. The chain of
      balances crosses the page boundary, and it ends at zero. */
  lemma PagesJoin(env: Env, s: State, s': State, w: WalletId, start: Option<SortKey>, limit: nat, first: seq<Entry>,
      second: seq<Entry>, more: bool)
    requires Reachable(env, s) && Reachable(env, s') && (Later(s, s') || Later(s', s)) && w in s.hist && first != []
    requires IsPage(s.db.ledger, w, start, limit, first, true)
    requires IsPage(s'.db.ledger, w, Some(first[|first| - 1].sk), limit, second, more)
    requires ReachesBack(s, s', w, start, first)
    ensures IsPage(s.db.ledger, w, start, 2 * limit, first + second, more)
    ensures second != [] ==> NewLedgerEntryView(first[|first| - 1]).balanceBefore == second[0].balanceAfter
    ensures second == [] && !more ==> NewLedgerEntryView(first[|first| - 1]).balanceBefore == 0
  {
    ReachableLedger(env, s);
    ReachableLedger(env, s');
    Histories(s, s', w);
    JoinedSlice(s, s', w, start, limit, first, second, more);
    SliceIsPage(s, w, start, 2 * limit, first + second, more);
    Seam(s, w, start, first, second, more);
  }

  lemma LaterReachesBack(env: Env, s: State, s': State, w: WalletId, start: Option<SortKey>, limit: nat, first: seq<Entry>)
    requires Reachable(env, s) && Later(s, s') && w in s.hist && IsPage(s.db.ledger, w, start, limit, first, true)
    ensures ReachesBack(s, s', w, start, first)
  {
    ReachableLedger(env, s);
    assert InCommitOrder(s.hist[w]);
    OlderSplits(s.hist[w], start);
  }

  lemma Histories(s: State, s': State, w: WalletId)
    requires LedgerInv(s) && LedgerInv(s') && (Later(s, s') || Later(s', s))
    ensures SameHistory(HistoryOf(s, w), HistoryOf(s', w)) && InCommitOrder(HistoryOf(s, w)) && InCommitOrder(HistoryOf(s', w))
  {
  }

  /** Pages read at any two moments of a run, the second one possibly from a replica behind the first, join exactly
      when the second read still reaches back to the first page. Otherwise entries are skipped, unless the second
      read found nothing and says that more may remain. */
  lemma PagesJoinExactly(env: Env, s: State, s': State, w: WalletId, start: Option<SortKey>, limit: nat, first: seq<Entry>,
      second: seq<Entry>, more: bool)
    requires Reachable(env, s) && Reachable(env, s') && (Later(s, s') || Later(s', s)) && w in s.hist && first != []
    requires IsPage(s.db.ledger, w, start, limit, first, true)
    requires IsPage(s'.db.ledger, w, Some(first[|first| - 1].sk), limit, second, more)
    ensures IsPage(s.db.ledger, w, start, 2 * limit, first + second, more) <==>
        ReachesBack(s, s', w, start, first) || (second == [] && more)
  {
    if ReachesBack(s, s', w, start, first) {
      PagesJoin(env, s, s', w, start, limit, first, second, more);
    } else if second == [] && more {
      assert first + second == first;
    } else if IsPage(s.db.ledger, w, start, 2 * limit, first + second, more) {
      ReachableLedger(env, s);
      ReachableLedger(env, s');
      Histories(s, s', w);
      JoinedReachesBack(s, s', w, start, limit, first, second, more);
    }
  }

  /** A second page that continues the first was read where the next entry in line was. */
  lemma JoinedReachesBack(s: State, s': State, w: WalletId, start: Option<SortKey>, limit: nat, first: seq<Entry>,
      second: seq<Entry>, more: bool)
    requires LedgerInv(s) && LedgerInv(s') && SameHistory(HistoryOf(s, w), HistoryOf(s', w)) && w in s.hist && first != []
    requires IsPage(s'.db.ledger, w, Some(first[|first| - 1].sk), limit, second, more) && (second != [] || !more)
    requires IsPage(s.db.ledger, w, start, 2 * limit, first + second, more)
    ensures ReachesBack(s, s', w, start, first)
  {
    hide IsSlice, Covered;
    PageIsSlice(s, w, start, 2 * limit, first + second, more);
    if second != [] {
      var h, next := s.hist[w], Older(s.hist[w], start) - 1 - |first|;
      assert (first + second)[|first|] == second[0];
      assert RowOf(s'.db.ledger, w, second[0]);
      RowHasHistory(s', w, second[0]);
      var m :| 0 <= m < |s'.hist[w]| && s'.hist[w][m] == h[next];
      assert InCommitOrder(h);
      if m < |h| {
        SamePrefix(h, s'.hist[w], m);
      }
    }
  }

  lemma RowHasHistory(s: State, w: WalletId, e: Entry)
    requires LedgerInv(s) && RowOf(s.db.ledger, w, e)
    ensures w in s.hist && e in s.hist[w]
  {
    assert LedgerRowOk(s, LedgerKey(w, e.sk));
  }

  lemma Seam(s: State, w: WalletId, start: Option<SortKey>, first: seq<Entry>, second: seq<Entry>, more: bool)
    requires LedgerInv(s) && w in s.hist && first != [] && IsSlice(s.hist[w], start, first + second)
    requires !more ==> |first + second| == Older(s.hist[w], start)
    ensures second != [] ==> NewLedgerEntryView(first[|first| - 1]).balanceBefore == second[0].balanceAfter
    ensures second == [] && !more ==> NewLedgerEntryView(first[|first| - 1]).balanceBefore == 0
  {
    var h, all := s.hist[w], first + second;
    var n := Older(h, start) - |first|;
    assert all[|first| - 1] == first[|first| - 1] == h[n];
    assert second != [] ==> all[|first|] == second[0];
    BalanceBeforeIsTotal(s, w, n);
  }

  lemma JoinedSlice(s: State, s': State, w: WalletId, start: Option<SortKey>, limit: nat, first: seq<Entry>,
      second: seq<Entry>, more: bool)
    requires LedgerInv(s) && LedgerInv(s') && SameHistory(HistoryOf(s, w), HistoryOf(s', w)) && w in s.hist && first != []
    requires IsPage(s.db.ledger, w, start, limit, first, true) && ReachesBack(s, s', w, start, first)
    requires IsPage(s'.db.ledger, w, Some(first[|first| - 1].sk), limit, second, more)
    ensures IsSlice(s.hist[w], start, first + second) && (!more ==> |first + second| == Older(s.hist[w], start))
    ensures |first| <= limit && |second| <= limit
  {
    assert InCommitOrder(s.hist[w]);
    PageIsSlice(s, w, start, limit, first, true);
    if w in s'.hist {
      assert InCommitOrder(s'.hist[w]);
      PageIsSlice(s', w, Some(first[|first| - 1].sk), limit, second, more);
      SlicesJoin(s.hist[w], s'.hist[w], start, first, second);
    } else {
      if second != [] {
        RowHasHistory(s', w, second[0]);
      }
      assert first + second == first;
    }
  }
}
