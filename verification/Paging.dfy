/**
 Keyset pagination of a wallet's ledger (internal/transport/http/wallet_handler.go and
 internal/infrastructure/postgres/wallet_ledger_repository.go). A cursor is the pair
 (created_at, id) of the last entry shown; its encoding as text is taken to be invertible.
 */
module Paging {
  import opened Basics
  import opened Wallets

  datatype Key = Key(createdAt: Time, id: Uuid)

  function KeyOf(e: Entry): Key { Key(e.createdAt, e.id) }

  /** (created_at, id) < (created_at, id) */
  predicate Less(a: Key, b: Key) {
    a.createdAt < b.createdAt || (a.createdAt == b.createdAt && a.id < b.id)
  }

  predicate Below(k: Key, cursor: Option<Key>) { cursor.Some? ==> Less(k, cursor.value) }

  /** Recorded before the cursor's instant, or at that instant with a smaller identifier. */
  predicate Older(e: Entry, cursor: Option<Key>) {
    cursor.Some? ==>
      || e.createdAt < cursor.value.createdAt
      || (e.createdAt == cursor.value.createdAt && e.id < cursor.value.id)
  }

  /** The wallet's entries that come after the cursor in descending order. */
  function Rest(ledger: seq<Entry>, wallet: Uuid, cursor: Option<Key>): set<Entry> {
    set e | e in ledger && e.walletId == wallet && Older(e, cursor)
  }

  /** Newest first. */
  predicate Descending(es: seq<Entry>) {
    forall i, j :: 0 <= i < j < |es| ==>
      es[i].createdAt > es[j].createdAt || (es[i].createdAt == es[j].createdAt && es[i].id > es[j].id)
  }

  /** Entry identifiers are the primary key, and constructed entries have an identifier and an instant. */
  predicate LedgerKeysOk(ledger: seq<Entry>) {
    && (forall e :: e in ledger ==> e.id != NIL_UUID && e.createdAt != ZERO_TIME)
    && (forall e, f :: e in ledger && f in ledger && e.id == f.id ==> e == f)
  }

  function Elements(es: seq<Entry>): set<Entry> { set e | e in es }

  /** The first `limit` entries after the cursor, in descending order. */
  predicate IsPage(ledger: seq<Entry>, wallet: Uuid, cursor: Option<Key>, limit: nat, page: seq<Entry>) {
    var rest := Rest(ledger, wallet, cursor);
    && Descending(page) && Elements(page) <= rest
    && (forall e, f :: e in page && f in rest && f !in page ==> Less(KeyOf(f), KeyOf(e)))
    && (if |rest| <= limit then Elements(page) == rest else |page| == limit)
  }

  /** The entry with the largest key. */
  method Largest(todo: set<Entry>) returns (best: Entry)
    requires todo != {} && DistinctKeys(todo)
    ensures best in todo && forall e :: e in todo && e != best ==> Less(KeyOf(e), KeyOf(best))
  {
    best :| best in todo;
    var left := todo - {best};
    while left != {}
      invariant left <= todo && best in todo
      invariant forall e :: e in todo && e !in left && e != best ==> Less(KeyOf(e), KeyOf(best))
      decreases |left|
    {
      var e :| e in left;
      if Less(KeyOf(best), KeyOf(e)) {
        best := e;
      }
      left := left - {e};
    }
  }

  predicate DistinctKeys(es: set<Entry>) {
    forall e, f :: e in es && f in es && KeyOf(e) == KeyOf(f) ==> e == f
  }

  lemma AppendSmallest(page: seq<Entry>, e: Entry)
    requires Descending(page) && forall f :: f in page ==> Less(KeyOf(e), KeyOf(f))
    ensures Descending(page + [e]) && Elements(page + [e]) == Elements(page) + {e}
  {
    var longer := page + [e];
    forall i, j | 0 <= i < j < |longer|
      ensures Less(KeyOf(longer[j]), KeyOf(longer[i]))
    {
      if j == |page| {
        assert page[i] in page;
      }
    }
  }

  /** ORDER BY created_at DESC, id DESC LIMIT limit */
  method TakeLargest(rest: set<Entry>, limit: nat) returns (page: seq<Entry>)
    requires DistinctKeys(rest)
    ensures Descending(page) && Elements(page) <= rest && |page| == Min(limit, |rest|)
    ensures forall e, f :: e in page && f in rest && f !in page ==> Less(KeyOf(f), KeyOf(e))
    ensures |rest| <= limit ==> Elements(page) == rest
  {
    page := [];
    var todo := rest;
    while |page| < limit && todo != {}
      invariant |page| <= limit && todo <= rest && |todo| + |page| == |rest|
      invariant Descending(page) && Elements(page) == rest - todo
      invariant forall e, f :: e in page && f in todo ==> Less(KeyOf(f), KeyOf(e))
      decreases |todo|
    {
      var e := Largest(todo);
      AppendSmallest(page, e);
      page := page + [e];
      todo := todo - {e};
    }
    assert forall f :: f in page <==> f in Elements(page);
  }

  /** ListByWallet */
  method ListByWallet(ledger: seq<Entry>, wallet: Uuid, cursor: Option<Key>, limit: nat) returns (page: seq<Entry>)
    requires LedgerKeysOk(ledger)
    ensures IsPage(ledger, wallet, cursor, limit, page)
    ensures |page| == Min(limit, |Rest(ledger, wallet, cursor)|)
  {
    page := TakeLargest(Rest(ledger, wallet, cursor), limit);
  }

  const DEFAULT_LIMIT: nat := 50
  const MAX_LIMIT := 100

  datatype Response = Response(entries: seq<Entry>, next: Option<Key>)

  datatype Query = Absent | Malformed | Value(n: int)

  function ParseLimit(q: Query): Option<nat> {
    match q
    case Absent => Some(DEFAULT_LIMIT)
    case Malformed => None
    case Value(n) => if n < 1 || n > MAX_LIMIT then None else Some(n)
  }

  predicate ValidCursor(cursor: Option<Key>) {
    cursor.Some? ==> cursor.value.createdAt != ZERO_TIME && cursor.value.id != NIL_UUID
  }

  /** A page, with a cursor to the next one exactly when entries remain. */
  predicate IsResponse(ledger: seq<Entry>, wallet: Uuid, cursor: Option<Key>, limit: nat, r: Response) {
    && IsPage(ledger, wallet, cursor, limit, r.entries)
    && (if |Rest(ledger, wallet, cursor)| <= limit then r.next.None?
        else |r.entries| > 0 && r.next == Some(KeyOf(r.entries[|r.entries| - 1])))
  }

  /** The response built from one entry more than it shows. */
  function Trimmed(fetched: seq<Entry>, n: nat): Response
    requires n > 0
  {
    if |fetched| > n then Response(fetched[..n], Some(KeyOf(fetched[n - 1]))) else Response(fetched, None)
  }

  /** The loop that builds the response. */
  method CopyEntries(shown: seq<Entry>) returns (entries: seq<Entry>)
    ensures entries == shown
  {
    entries := [];
    for i := 0 to |shown|
      invariant entries == shown[..i]
    {
      entries := entries + [shown[i]];
    }
  }

  datatype Answer = InvalidPayload | UnknownWallet | Page(response: Response)

  /** Ledger: fetches one entry more than it shows in order to know whether there are more. */
  method Ledger(wallets: set<Uuid>, ledger: seq<Entry>, wallet: Uuid, limit: Query, cursor: Option<Key>) returns (r: Answer)
    requires LedgerKeysOk(ledger)
    ensures r.InvalidPayload? <==>
            || limit.Malformed? || (limit.Value? && (limit.n < 1 || limit.n > 100))
            || (cursor.Some? && (cursor.value.createdAt == ZERO_TIME || cursor.value.id == NIL_UUID))
    ensures r.UnknownWallet? <==> !r.InvalidPayload? && (wallet == NIL_UUID || wallet !in wallets)
    ensures r.Page? ==> IsResponse(ledger, wallet, cursor, if limit.Value? then limit.n else 50, r.response)
    ensures r.Page? ==> ValidCursor(r.response.next)
  {
    hide IsPage, IsResponse, Rest, LedgerKeysOk;
    var parsed := ParseLimit(limit);
    if parsed.None? || !ValidCursor(cursor) {
      return InvalidPayload;
    }
    if wallet == NIL_UUID || wallet !in wallets {
      return UnknownWallet;
    }
    var n := parsed.value;
    var fetched := ListByWallet(ledger, wallet, cursor, n + 1);
    var hasMore := |fetched| > n;
    var shown := if hasMore then fetched[..n] else fetched;
    TrimmedResponse(ledger, wallet, cursor, n, fetched);
    var entries := CopyEntries(shown);
    return Page(Response(entries, if hasMore then Some(KeyOf(entries[|entries| - 1])) else None));
  }

  lemma TrimmedResponse(ledger: seq<Entry>, wallet: Uuid, cursor: Option<Key>, n: nat, fetched: seq<Entry>)
    requires LedgerKeysOk(ledger) && n > 0
    requires IsPage(ledger, wallet, cursor, n + 1, fetched) && |fetched| == Min(n + 1, |Rest(ledger, wallet, cursor)|)
    ensures IsResponse(ledger, wallet, cursor, n, Trimmed(fetched, n)) && ValidCursor(Trimmed(fetched, n).next)
  {
    TrimmedPage(ledger, wallet, cursor, n, fetched);
    if |fetched| > n {
      assert fetched[n - 1] in Elements(fetched);
    }
  }

  lemma TrimmedPage(ledger: seq<Entry>, wallet: Uuid, cursor: Option<Key>, n: nat, fetched: seq<Entry>)
    requires IsPage(ledger, wallet, cursor, n + 1, fetched) && |fetched| == Min(n + 1, |Rest(ledger, wallet, cursor)|) && n > 0
    ensures IsPage(ledger, wallet, cursor, n, if |fetched| > n then fetched[..n] else fetched)
  {
    if |fetched| > n {
      var page := fetched[..n];
      assert fetched == page + [fetched[n]];
      forall e | e in page
        ensures e in fetched && Less(KeyOf(fetched[n]), KeyOf(e))
      {
      }
    }
  }

  // ----- following the cursors -----

  /** One request: the ledger at that moment and the response. */
  datatype Visit = Visit(ledger: seq<Entry>, response: Response)

  /** The cursor to use next. */
  function CursorAfter(visits: seq<Visit>): Option<Key> {
    if visits == [] then None else visits[|visits| - 1].response.next
  }

  predicate Grows(ledger: seq<Entry>, later: seq<Entry>) {
    forall e :: e in ledger ==> e in later
  }

  /** Each request follows the cursor of the previous one; between requests entries may be added. */
  predicate Traversal(wallet: Uuid, limit: nat, visits: seq<Visit>) {
    visits == [] ||
    var init, v := visits[..|visits| - 1], visits[|visits| - 1];
    && Traversal(wallet, limit, init)
    && IsResponse(v.ledger, wallet, CursorAfter(init), limit, v.response)
    && (init != [] ==> CursorAfter(init).Some? && Grows(init[|init| - 1].ledger, v.ledger))
  }

  /** What one response does not show comes after its cursor. */
  lemma ResponseLeaves(ledger: seq<Entry>, wallet: Uuid, cursor: Option<Key>, limit: nat, r: Response, e: Entry)
    requires IsResponse(ledger, wallet, cursor, limit, r) && e in Rest(ledger, wallet, cursor)
    ensures e in r.entries || (r.next.Some? && Less(KeyOf(e), r.next.value))
  {
    assert e in r.entries || e !in Elements(r.entries);
  }

  /** Everything shown so far. */
  function Shown(visits: seq<Visit>): seq<Entry> {
    if visits == [] then [] else Shown(visits[..|visits| - 1]) + visits[|visits| - 1].response.entries
  }

  lemma LessTransitive(a: Key, b: Key, c: Key)
    requires Less(a, b) && (Less(b, c) || b == c)
    ensures Less(a, c)
  {
  }

  lemma JoinDescending(a: seq<Entry>, b: seq<Entry>)
    requires Descending(a) && Descending(b)
    requires a != [] ==> forall e :: e in b ==> Less(KeyOf(e), KeyOf(a[|a| - 1]))
    ensures Descending(a + b)
  {
    var c := a + b;
    forall i, j | 0 <= i < j < |c|
      ensures Less(KeyOf(c[j]), KeyOf(c[i]))
    {
      if i < |a| <= j {
        assert c[j] in b;
        assert i < |a| - 1 ==> Less(KeyOf(a[|a| - 1]), KeyOf(a[i]));
        LessTransitive(KeyOf(c[j]), KeyOf(a[|a| - 1]), KeyOf(a[i]));
      }
    }
  }

  lemma PageIsBelow(ledger: seq<Entry>, wallet: Uuid, cursor: Option<Key>, limit: nat, page: seq<Entry>, e: Entry)
    requires IsPage(ledger, wallet, cursor, limit, page) && e in page
    ensures Below(KeyOf(e), cursor) && e in ledger && e.walletId == wallet
  {
    assert e in Elements(page);
  }

  /** Whatever is appended meanwhile, no entry is shown twice and the order is descending throughout. */
  lemma {:induction false} NoRepeats(wallet: Uuid, limit: nat, visits: seq<Visit>)
    requires Traversal(wallet, limit, visits)
    ensures Descending(Shown(visits))
    ensures CursorAfter(visits).Some? ==>
              Shown(visits) != [] && CursorAfter(visits) == Some(KeyOf(Shown(visits)[|Shown(visits)| - 1]))
  {
    if visits != [] {
      var init, v := visits[..|visits| - 1], visits[|visits| - 1];
      NoRepeats(wallet, limit, init);
      forall e | e in v.response.entries
        ensures Below(KeyOf(e), CursorAfter(init))
      {
        PageIsBelow(v.ledger, wallet, CursorAfter(init), limit, v.response.entries, e);
      }
      JoinDescending(Shown(init), v.response.entries);
    }
  }

  /** An entry present at the first request is shown, or is still to come. */
  lemma {:induction false} NoSkips(wallet: Uuid, limit: nat, visits: seq<Visit>, e: Entry)
    requires Traversal(wallet, limit, visits) && visits != [] && e in visits[0].ledger && e.walletId == wallet
    ensures e in visits[|visits| - 1].ledger
    ensures e in Shown(visits) || (CursorAfter(visits).Some? && Less(KeyOf(e), CursorAfter(visits).value))
  {
    var init, v := visits[..|visits| - 1], visits[|visits| - 1];
    if init != [] {
      NoSkips(wallet, limit, init, e);
    }
    if e !in Shown(init) {
      ResponseLeaves(v.ledger, wallet, CursorAfter(init), limit, v.response, e);
    }
  }

  lemma {:induction false} ShownAreStored(wallet: Uuid, limit: nat, visits: seq<Visit>, e: Entry)
    requires Traversal(wallet, limit, visits) && e in Shown(visits)
    ensures visits != [] && e in visits[|visits| - 1].ledger && e.walletId == wallet
  {
    var init, v := visits[..|visits| - 1], visits[|visits| - 1];
    if e in Shown(init) {
      ShownAreStored(wallet, limit, init, e);
    } else {
      PageIsBelow(v.ledger, wallet, CursorAfter(init), limit, v.response.entries, e);
    }
  }

  /**
   A traversal that reached its last page showed every entry that was in the ledger at the
   first request; on an unchanged ledger it showed exactly the wallet's entries.
   */
  lemma CompleteTraversal(wallet: Uuid, limit: nat, visits: seq<Visit>)
    requires Traversal(wallet, limit, visits) && visits != [] && CursorAfter(visits).None?
    ensures Descending(Shown(visits))
    ensures forall e :: e in visits[0].ledger && e.walletId == wallet ==> e in Shown(visits)
    ensures forall e :: e in Shown(visits) ==> e in visits[|visits| - 1].ledger && e.walletId == wallet
  {
    NoRepeats(wallet, limit, visits);
    forall e | e in visits[0].ledger && e.walletId == wallet
      ensures e in Shown(visits)
    {
      NoSkips(wallet, limit, visits, e);
    }
    forall e | e in Shown(visits)
      ensures e in visits[|visits| - 1].ledger && e.walletId == wallet
    {
      ShownAreStored(wallet, limit, visits, e);
    }
  }

  /** A response to the cursor reached so far continues the traversal. */
  lemma OneMoreVisit(wallet: Uuid, limit: nat, visits: seq<Visit>, ledger: seq<Entry>, r: Response)
    requires Traversal(wallet, limit, visits) && IsResponse(ledger, wallet, CursorAfter(visits), limit, r)
    requires visits != [] ==> CursorAfter(visits).Some? && visits[|visits| - 1].ledger == ledger
    ensures var longer := visits + [Visit(ledger, r)];
            && Traversal(wallet, limit, longer) && Shown(longer) == Shown(visits) + r.entries && CursorAfter(longer) == r.next
  {
    hide IsResponse;
    assert (visits + [Visit(ledger, r)])[..|visits|] == visits;
  }

  /** Following the cursors of a fixed ledger with any allowed limit stops, having shown each entry once. */
  method ReadAll(wallets: set<Uuid>, ledger: seq<Entry>, wallet: Uuid, limit: Query) returns (shown: seq<Entry>)
    requires LedgerKeysOk(ledger) && ParseLimit(limit).Some? && wallet != NIL_UUID && wallet in wallets
    ensures Descending(shown)
    ensures forall e :: e in shown <==> e in ledger && e.walletId == wallet
  {
    hide IsResponse, Rest, LedgerKeysOk, Descending;
    shown := [];
    ghost var visits := [];
    var next: Option<Key> := None;
    var more := true;
    while more
      invariant Traversal(wallet, ParseLimit(limit).value, visits) && shown == Shown(visits) && next == CursorAfter(visits)
      invariant visits != [] ==> visits[0].ledger == ledger && visits[|visits| - 1].ledger == ledger
      invariant ValidCursor(next) && (if more then visits != [] ==> next.Some? else visits != [] && next.None?)
      decreases more, |Rest(ledger, wallet, next)|
    {
      var answer := Ledger(wallets, ledger, wallet, limit, next);
      var r := answer.response;
      OneMoreVisit(wallet, ParseLimit(limit).value, visits, ledger, r);
      if r.next.Some? {
        FewerLeft(ledger, wallet, next, ParseLimit(limit).value, r);
      }
      visits := visits + [Visit(ledger, r)];
      shown := shown + r.entries;
      next := r.next;
      more := next.Some?;
    }
    CompleteTraversal(wallet, ParseLimit(limit).value, visits);
  }

  lemma NextIsWithin(ledger: seq<Entry>, wallet: Uuid, cursor: Option<Key>, limit: nat, r: Response)
    requires IsResponse(ledger, wallet, cursor, limit, r) && r.next.Some?
    ensures Rest(ledger, wallet, r.next) <= Rest(ledger, wallet, cursor)
    ensures forall e :: e in r.entries ==> !Less(KeyOf(e), r.next.value)
  {
    var last := r.entries[|r.entries| - 1];
    assert last in Elements(r.entries);
    forall e | e in Rest(ledger, wallet, r.next)
      ensures e in Rest(ledger, wallet, cursor)
    {
      if cursor.Some? {
        LessTransitive(KeyOf(e), KeyOf(last), cursor.value);
      }
    }
  }

  lemma FewerLeft(ledger: seq<Entry>, wallet: Uuid, cursor: Option<Key>, limit: nat, r: Response)
    requires IsResponse(ledger, wallet, cursor, limit, r) && r.next.Some?
    ensures |Rest(ledger, wallet, r.next)| < |Rest(ledger, wallet, cursor)|
  {
    var last := r.entries[|r.entries| - 1];
    var a, b := Rest(ledger, wallet, r.next), Rest(ledger, wallet, cursor);
    NextIsWithin(ledger, wallet, cursor, limit, r);
    assert last in Elements(r.entries) && last in b && last !in a;
    assert b == a + (b - a) && last in b - a;
  }
}
