/** Cursor paging over a vtxo chain. */
module VtxoChainPaging {
  import opened Outpoints
  import opened VtxoChain
  import opened VtxoChainTheorems
  import opened VtxoChainAgree

  /** The fixed size of a cursor page. */
  const MaxWalkSize: nat := 50_000

  const MaxPageSize: nat := 100

  /** The limit of a walk that is meant to load the whole chain. */
  const NoLimit: nat := 0x7fff_ffff

  /** A page, and the offset its next-page token carries. */
  datatype Page = Page(chain: seq<ChainTx>, next: Option<nat>)

  function Min(a: int, b: int): int {
    if a <= b then a else b
  }

  function ChainCursorPage(chain: seq<ChainTx>, offset: int, pageSize: int, more: bool): Page {
    var offset := if offset < 0 then 0 else offset;
    var pageSize := if pageSize <= 0 then MaxPageSize else pageSize;
    if offset >= |chain| then Page([], None)
    else
      var end := Min(offset + pageSize, |chain|);
      Page(chain[offset..end], if more || end < |chain| then Some(end) else None)
  }

  /** GetVtxoChain with a page token. */
  ghost function TokenPage(db: Db, op: Outpoint, offset: nat, size: nat): Result<Page> {
    match PlainWalk(db, [op], Start, Some(offset + size))
    case Failed(e) => Err(e)
    case Walked(w, truncated) => Ok(ChainCursorPage(w.chain, offset, size, truncated))
  }

  /** GetVtxoChainByIntent, which hands out the first token. */
  ghost function FirstPage(db: Db, op: Outpoint, size: nat): Result<Page> {
    match PlainWalk(db, [op], Start, Some(NoLimit))
    case Failed(e) => Err(e)
    case Walked(w, truncated) => Ok(ChainCursorPage(w.chain, 0, size, false))
  }

  /** The whole chain. */
  ghost function FullChain(db: Db, op: Outpoint): Result<seq<ChainTx>> {
    match PlainWalk(db, [op], Start, None)
    case Failed(e) => Err(e)
    case Walked(w, _) => Ok(w.chain)
  }

  /** The slice of the whole chain that a page at offset stands for. */
  function Slice(chain: seq<ChainTx>, offset: nat, size: nat): Page {
    if offset >= |chain| then Page([], None)
    else
      var end := Min(offset + size, |chain|);
      Page(chain[offset..end], if end < |chain| then Some(end) else None)
  }

  /** A page cut out of a prefix that is long enough is the page of the whole chain. */
  lemma PageOfPrefix(full: seq<ChainTx>, k: nat, offset: nat, size: nat, more: bool)
    requires k <= |full| && size > 0 && (more ==> k < |full|)
    requires k == |full| || (k >= offset + size && (more || k > offset + size))
    ensures ChainCursorPage(full[..k], offset, size, more) == Slice(full, offset, size)
  {
    if offset < k {
      var end := Min(offset + size, k);
      assert full[..k][offset..end] == full[offset..end];
    }
  }

  /** A page loaded from a walk that stops early is the page of the whole chain. */
  lemma TokenPageIsSlice(db: Db, op: Outpoint, offset: nat, size: nat)
    requires FullChain(db, op).Ok? && size > 0
    ensures TokenPage(db, op, offset, size) == Ok(Slice(FullChain(db, op).value, offset, size))
  {
    hide PlainWalk;
    WalkPrefix(db, [op], Start, offset + size);
    var lim := PlainWalk(db, [op], Start, Some(offset + size));
    var full := FullChain(db, op).value;
    assert lim.w.chain == full[..|lim.w.chain|];
    PageOfPrefix(full, |lim.w.chain|, offset, size, lim.truncated);
  }

  lemma FirstPageIsSlice(db: Db, op: Outpoint, size: nat)
    requires FullChain(db, op).Ok? && 0 < size < NoLimit
    ensures FirstPage(db, op, size) == Ok(Slice(FullChain(db, op).value, 0, size))
  {
    hide PlainWalk;
    WalkPrefix(db, [op], Start, NoLimit);
    var lim := PlainWalk(db, [op], Start, Some(NoLimit));
    var full := FullChain(db, op).value;
    assert lim.w.chain == full[..|lim.w.chain|];
    PageOfPrefix(full, |lim.w.chain|, 0, size, false);
  }

  /** The pages a client collects by following tokens from a first page. */
  datatype Session = Session(pages: seq<Page>, error: Option<WalkError>)

  /** The database at each request of a session. */
  type History = nat -> Db

  /** Follows tokens for at most n pages; the k-th request reads dbs(k). */
  ghost function Follow(dbs: History, k: nat, op: Outpoint, size: nat, page: Result<Page>, n: nat): Session
    decreases n
  {
    if n == 0 then Session([], None)
    else
      match page
      case Err(e) => Session([], Some(e))
      case Ok(p) =>
        match p.next
        case None => Session([p], None)
        case Some(offset) =>
          var rest := Follow(dbs, k + 1, op, size, TokenPage(dbs(k), op, offset, size), n - 1);
          Session([p] + rest.pages, rest.error)
  }

  function Flatten(pages: seq<Page>): seq<ChainTx> {
    if pages == [] then [] else pages[0].chain + Flatten(pages[1..])
  }

  ghost predicate Complete(session: Session) {
    && session.error.None? && session.pages != []
    && session.pages[|session.pages| - 1].next.None?
    && (forall i :: 0 <= i < |session.pages| ==> session.pages[i].chain != [])
  }

  /** All pages hold size txs but the last one, which may hold fewer. */
  ghost predicate FullPages(pages: seq<Page>, size: nat) {
    forall i :: 0 <= i < |pages| ==> |pages[i].chain| <= size && (i < |pages| - 1 ==> |pages[i].chain| == size)
  }

  lemma OnePageMore(page: Page, rest: Session, size: nat)
    requires Complete(rest) && page.chain != [] && |page.chain| == size && FullPages(rest.pages, size)
    ensures Complete(Session([page] + rest.pages, rest.error)) && FullPages([page] + rest.pages, size)
    ensures Flatten([page] + rest.pages) == page.chain + Flatten(rest.pages)
  {
    assert ([page] + rest.pages)[1..] == rest.pages;
  }

  lemma LastPage(page: Page, size: nat)
    requires page.chain != [] && page.next.None? && |page.chain| <= size
    ensures Complete(Session([page], None)) && Flatten([page]) == page.chain && FullPages([page], size)
  {
  }

  /** The chain is the same at every request. */
  ghost predicate Steady(dbs: History, op: Outpoint, full: seq<ChainTx>) {
    forall k: nat :: FullChain(dbs(k), op) == Ok(full)
  }

  lemma {:induction false} FollowsToTheEnd(
    dbs: History, k: nat, op: Outpoint, size: nat, full: seq<ChainTx>, offset: nat, n: nat)
    requires Steady(dbs, op, full) && size > 0 && offset < |full| && n >= |full| - offset
    ensures var session := Follow(dbs, k, op, size, Ok(Slice(full, offset, size)), n);
            Complete(session) && Flatten(session.pages) == full[offset..] && FullPages(session.pages, size)
    decreases n
  {
    hide FullChain, TokenPage, Complete, Flatten, FullPages;
    var page := Slice(full, offset, size);
    match page.next
    case None => LastPage(page, size);
    case Some(end) =>
      assert FullChain(dbs(k), op) == Ok(full);
      TokenPageIsSlice(dbs(k), op, end, size);
      FollowsToTheEnd(dbs, k + 1, op, size, full, end, n - 1);
      var rest := Follow(dbs, k + 1, op, size, Ok(Slice(full, end, size)), n - 1);
      OnePageMore(page, rest, size);
      assert full[offset..end] + full[end..] == full[offset..];
  }

  lemma ChainNotEmpty(db: Db, op: Outpoint)
    requires FullChain(db, op).Ok?
    ensures FullChain(db, op).value != []
  {
    WalkPrefix(db, [op], Start, 0);
  }

  /**
   From the first page on, following tokens ends after finitely many pages, all of the given size but the last, and
   they put together exactly the whole chain, as long as that chain stays the same.
   */
  lemma PagingCollects(dbs: History, op: Outpoint, size: nat, full: seq<ChainTx>)
    requires Steady(dbs, op, full) && 0 < size < NoLimit
    ensures Collects(Follow(dbs, 1, op, size, FirstPage(dbs(0), op, size), |full|), full, size)
    ensures Collects(Follow(dbs, 1, op, size, TokenPage(dbs(0), op, 0, size), |full|), full, size)
  {
    hide FullChain, TokenPage, FirstPage;
    assert FullChain(dbs(0), op) == Ok(full);
    ChainNotEmpty(dbs(0), op);
    FirstPageIsSlice(dbs(0), op, size);
    TokenPageIsSlice(dbs(0), op, 0, size);
    FollowsToTheEnd(dbs, 1, op, size, full, 0, |full|);
  }

  ghost predicate Collects(session: Session, full: seq<ChainTx>, size: nat) {
    Complete(session) && Flatten(session.pages) == full && FullPages(session.pages, size)
  }

  /** On one database, with the page size the server uses. */
  lemma PagingCollectsChain(db: Db, op: Outpoint)
    requires FullChain(db, op).Ok?
    ensures var full := FullChain(db, op).value;
            && Collects(Follow(k => db, 1, op, MaxWalkSize, FirstPage(db, op, MaxWalkSize), |full|), full, MaxWalkSize)
            && Collects(Follow(k => db, 1, op, MaxWalkSize, TokenPage(db, op, 0, MaxWalkSize), |full|), full, MaxWalkSize)
  {
    hide FullChain, TokenPage, FirstPage, Follow, Collects;
    PagingCollects(k => db, op, MaxWalkSize, FullChain(db, op).value);
  }

  /** Rows that are added between two pages do no harm: the pages put together the chain as it was at first. */
  lemma PagingSurvivesGrowth(dbs: History, op: Outpoint, size: nat)
    requires ChainPresent(dbs(0), [op]) && (forall k: nat :: Grown(dbs(0), dbs(k))) && 0 < size < NoLimit
    ensures var full := FullChain(dbs(0), op).value;
            && Collects(Follow(dbs, 1, op, size, FirstPage(dbs(0), op, size), |full|), full, size)
            && Collects(Follow(dbs, 1, op, size, TokenPage(dbs(0), op, 0, size), |full|), full, size)
  {
    hide TokenPage, FirstPage, Follow, Collects, PlainWalk, Grown;
    var full := FullChain(dbs(0), op).value;
    forall k: nat ensures FullChain(dbs(k), op) == Ok(full) {
      ChainSurvivesGrowth(dbs(0), dbs(k), [op], None);
    }
    PagingCollects(dbs, op, size, full);
  }
}
