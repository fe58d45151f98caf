/** Keyset paging over a wallet's ledger: pages, cursors, and walks over a ledger that grows meanwhile. */
module Paging {
  import opened Wrappers
  import opened Wallet
  import opened Ledger

  // ---------------------------------------------------------------- the order of the query

  datatype Key = Key(at: Time, id: Id)

  function KeyOf(e: Entry): Key {
    Key(e.createdAt, e.id)
  }

  predicate IdLess(a: string, b: string) {
    b != "" && (a == "" || a[0] < b[0] || (a[0] == b[0] && IdLess(a[1..], b[1..])))
  }

  predicate KeyLess(a: Key, b: Key) {
    a.at < b.at || (a.at == b.at && IdLess(a.id, b.id))
  }

  lemma {:induction false} IdOrder(a: string, b: string)
    ensures !(IdLess(a, b) && IdLess(b, a)) && (a == b || IdLess(a, b) || IdLess(b, a)) && !IdLess(a, a)
  {
    if a != "" {
      IdOrder(a[1..], a[1..]);
    }
    if a != "" && b != "" && a[0] == b[0] {
      IdOrder(a[1..], b[1..]);
      assert a[1..] == b[1..] ==> a == b by {
        assert a == [a[0]] + a[1..] && b == [b[0]] + b[1..];
      }
    }
  }

  lemma {:induction false} IdLessTransitive(a: string, b: string, c: string)
    requires IdLess(a, b) && IdLess(b, c)
    ensures IdLess(a, c)
  {
    if a != "" && a[0] == b[0] && b[0] == c[0] {
      IdLessTransitive(a[1..], b[1..], c[1..]);
    }
  }

  lemma KeyOrder(a: Key, b: Key)
    ensures !(KeyLess(a, b) && KeyLess(b, a)) && (a == b || KeyLess(a, b) || KeyLess(b, a)) && !KeyLess(a, a)
  {
    IdOrder(a.id, b.id);
    IdOrder(a.id, a.id);
  }

  lemma KeyLessTransitive(a: Key, b: Key, c: Key)
    requires KeyLess(a, b) && KeyLess(b, c)
    ensures KeyLess(a, c)
  {
    if a.at == b.at == c.at {
      IdLessTransitive(a.id, b.id, c.id);
    }
  }

  predicate Beyond(k: Key, after: Option<Key>) {
    after.None? || KeyLess(after.value, k)
  }

  ghost predicate Ascending(es: seq<Entry>) {
    forall i, j | 0 <= i < j < |es| :: KeyLess(KeyOf(es[i]), KeyOf(es[j]))
  }

  /** Ids are the table's primary key. */
  ghost predicate UniqueIds(ledger: set<Entry>) {
    forall d, e | d in ledger && e in ledger && d.id == e.id :: d == e
  }

  ghost function Matching(ledger: set<Entry>, walletId: Id, after: Option<Key>): set<Entry> {
    set e | e in ledger && e.walletId == walletId && Beyond(KeyOf(e), after)
  }

  /** The first rows of the ordered query: ascending, and nothing that matches comes before a row that is left out. */
  ghost predicate FirstRows(ledger: set<Entry>, walletId: Id, after: Option<Key>, n: nat, rows: seq<Entry>) {
    && Ascending(rows) && (forall e | e in rows :: e in Matching(ledger, walletId, after))
    && |rows| <= n
    && (forall e | e in Matching(ledger, walletId, after) && e !in rows ::
          |rows| == n && forall r | r in rows :: KeyLess(KeyOf(r), KeyOf(e)))
  }

  method Least(es: set<Entry>) returns (least: Entry)
    requires es != {} && UniqueIds(es)
    ensures least in es && forall e | e in es && e != least :: KeyLess(KeyOf(least), KeyOf(e))
  {
    least :| least in es;
    var rest := es - {least};
    while rest != {}
      invariant rest <= es && least in es && least !in rest
      invariant forall e | e in es - rest && e != least :: KeyLess(KeyOf(least), KeyOf(e))
      decreases |rest|
    {
      var next :| next in rest;
      KeyOrder(KeyOf(next), KeyOf(least));
      if KeyLess(KeyOf(next), KeyOf(least)) {
        forall e | e in es - rest && e != least
          ensures KeyLess(KeyOf(next), KeyOf(e))
        {
          KeyLessTransitive(KeyOf(next), KeyOf(least), KeyOf(e));
        }
        least := next;
      }
      rest := rest - {next};
    }
  }

  /** SELECT ... WHERE wallet_id = $1 AND (created_at, id) > cursor ORDER BY created_at, id LIMIT n. */
  method Select(ledger: set<Entry>, walletId: Id, after: Option<Key>, n: nat) returns (rows: seq<Entry>)
    requires UniqueIds(ledger)
    ensures FirstRows(ledger, walletId, after, n, rows)
  {
    var left := set e | e in ledger && e.walletId == walletId && Beyond(KeyOf(e), after);
    rows := [];
    while |rows| < n && left != {}
      invariant |rows| <= n && Ascending(rows)
      invariant forall e :: e in Matching(ledger, walletId, after) <==> e in rows || e in left
      invariant forall e, r | e in left && r in rows :: KeyLess(KeyOf(r), KeyOf(e))
      decreases |left|
    {
      var least := Least(left);
      assert forall i | 0 <= i < |rows| :: rows[i] in rows;
      rows := rows + [least];
      left := left - {least};
    }
  }

  // ---------------------------------------------------------------- cursors

  /** The library's time format and base64 alphabet; all that is used of them is in `Faithful`. */
  datatype Codec = Codec(
    format: Time -> string, parse: string -> Option<Time>, encode: string -> string, decode: string -> Option<string>)
  {
    /** Formatting and encoding can be undone; a formatted time has no separator, and an encoding is never empty. */
    ghost predicate Faithful() {
      && (forall t :: parse(format(t)) == Some(t) && '|' !in format(t))
      && (forall raw :: decode(encode(raw)) == Some(raw))
      && (forall raw :: raw != "" ==> encode(raw) != "")
    }
  }

  function EncodeCursor(c: Codec, k: Key): string {
    c.encode(c.format(k.at) + "|" + k.id)
  }

  /** The position of the first separator, or the length. */
  function Separator(s: string): (i: nat)
    ensures i <= |s| && (i < |s| ==> s[i] == '|') && forall k | 0 <= k < i :: s[k] != '|'
  {
    if s == "" then 0 else if s[0] == '|' then 0 else 1 + Separator(s[1..])
  }

  function DecodeCursor(c: Codec, cursor: string): Result<Key> {
    match c.decode(cursor)
    case None => Err(ErrInvalidFormat)
    case Some(raw) =>
      var i := Separator(raw);
      if i == |raw| then Err(ErrInvalidFormat)
      else
        match c.parse(raw[..i])
        case None => Err(ErrInvalidFormat)
        case Some(at) => Ok(Key(at, raw[i + 1..]))
  }

  lemma {:induction false} SeparatorFound(before: string, rest: string)
    requires '|' !in before
    ensures Separator(before + "|" + rest) == |before|
  {
    var s := before + "|" + rest;
    if before != "" {
      SeparatorFound(before[1..], rest);
      assert s[1..] == before[1..] + "|" + rest;
      assert s[0] == before[0] && before[0] in before;
    }
  }

  /** The cursor is read back as the pair it was made of, whatever the id contains. */
  lemma CursorRoundTrip(c: Codec, k: Key)
    requires c.Faithful()
    ensures EncodeCursor(c, k) != "" && DecodeCursor(c, EncodeCursor(c, k)) == Ok(k)
  {
    var at := c.format(k.at);
    var raw := at + "|" + k.id;
    assert '|' !in at;
    SeparatorFound(at, k.id);
    assert raw[..|at|] == at && raw[|at| + 1..] == k.id;
  }

  // ---------------------------------------------------------------- one page

  const DEFAULT_PAGE_SIZE := 50

  function PageSize(limit: int): nat {
    if limit <= 0 then DEFAULT_PAGE_SIZE else limit
  }

  /** The rows pass the domain's own checks when they are read back. */
  ghost predicate Sound(e: Entry) {
    NewEntry(e.id, e.walletId, e.transactionId, e.direction, e.amount, e.balanceBefore, e.balanceAfter, e.createdAt) == Ok(e)
  }

  /** A page holds the next rows in order; its cursor, if there is one, is the key of its last row, and the page is full. */
  ghost predicate IsPage(ledger: set<Entry>, walletId: Id, after: Option<Key>, size: nat, page: seq<Entry>, next: Option<Key>) {
    && Ascending(page) && |page| <= size && (forall e | e in page :: e in Matching(ledger, walletId, after))
    && match next
       case None => forall e | e in Matching(ledger, walletId, after) :: e in page
       case Some(k) =>
         && page != [] && |page| == size && k == KeyOf(page[|page| - 1])
         && forall e | e in Matching(ledger, walletId, after) && !KeyLess(k, KeyOf(e)) :: e in page
  }

  /** The repository's listing: an unreadable cursor is an error, anything else a page and the cursor of the next. */
  method ListByWallet(c: Codec, ledger: set<Entry>, walletId: Id, cursor: string, limit: int) returns (r: Result<(seq<Entry>, string)>)
    requires c.Faithful() && UniqueIds(ledger) && forall e | e in ledger :: Sound(e)
    ensures cursor != "" && DecodeCursor(c, cursor).Err? ==> r.Err?
    ensures cursor == "" || DecodeCursor(c, cursor).Ok? ==>
      && r.Ok?
      && var after := if cursor == "" then None else Some(DecodeCursor(c, cursor).value);
      var page, nextCursor := r.value.0, r.value.1;
      if nextCursor == "" then IsPage(ledger, walletId, after, PageSize(limit), page, None)
      else page != [] && nextCursor == EncodeCursor(c, KeyOf(page[|page| - 1]))
           && IsPage(ledger, walletId, after, PageSize(limit), page, Some(KeyOf(page[|page| - 1])))
  {
    var size := if limit <= 0 then DEFAULT_PAGE_SIZE else limit;
    var after: Option<Key> := None;
    if cursor != "" {
      var decoded := DecodeCursor(c, cursor);
      if decoded.Err? {
        return Err(decoded.error);
      }
      after := Some(decoded.value);
    }
    var rows := Select(ledger, walletId, after, size + 1);
    var entries := ReadRows(ledger, rows);
    if |entries| > size {
      var last := entries[size - 1];
      CutIsPage(ledger, walletId, after, size, entries);
      CursorRoundTrip(c, KeyOf(last));
      return Ok((entries[..size], EncodeCursor(c, KeyOf(last))));
    }
    return Ok((entries, ""));
  }

  method ReadRows(ghost ledger: set<Entry>, rows: seq<Entry>) returns (entries: seq<Entry>)
    requires forall e | e in rows :: e in ledger
    requires forall e | e in ledger :: Sound(e)
    ensures entries == rows
  {
    entries := [];
    for i := 0 to |rows|
      invariant entries == rows[..i]
    {
      assert rows[i] in rows;
      var e := rows[i];
      var entry := NewEntry(e.id, e.walletId, e.transactionId, e.direction, e.amount, e.balanceBefore, e.balanceAfter, e.createdAt);
      entries := entries + [entry.value];
    }
  }

  /** Cutting off the one row too many leaves a page that ends where it was cut. */
  lemma CutIsPage(ledger: set<Entry>, walletId: Id, after: Option<Key>, size: nat, rows: seq<Entry>)
    requires FirstRows(ledger, walletId, after, size + 1, rows) && |rows| == size + 1 && size > 0
    ensures IsPage(ledger, walletId, after, size, rows[..size], Some(KeyOf(rows[size - 1])))
  {
    var page, k := rows[..size], KeyOf(rows[size - 1]);
    forall e | e in page
      ensures e in Matching(ledger, walletId, after)
    {
      assert e in rows;
    }
    forall e | e in Matching(ledger, walletId, after) && !KeyLess(k, KeyOf(e))
      ensures e in page
    {
      assert rows[size - 1] in rows;
      if e in rows {
        var i :| 0 <= i < |rows| && rows[i] == e;
        assert i != size;
        assert page[i] == e;
      }
    }
  }

  // ---------------------------------------------------------------- walks

  /** One listing of a walk: the ledger it met, the size asked for, and what came back. */
  datatype Visit = Visit(ledger: set<Entry>, limit: int, page: seq<Entry>, next: Option<Key>)

  ghost predicate VisitOk(walletId: Id, v: Visit, after: Option<Key>) {
    UniqueIds(v.ledger) && IsPage(v.ledger, walletId, after, PageSize(v.limit), v.page, v.next)
  }

  /** Each page starts at the cursor of the one before, on a ledger that has only gained entries. */
  ghost predicate IsWalk(walletId: Id, visits: seq<Visit>)
    requires visits != []
  {
    var n := |visits| - 1;
    if n == 0 then VisitOk(walletId, visits[0], None)
    else
      && IsWalk(walletId, visits[..n])
      && visits[n - 1].next.Some? && visits[n - 1].ledger <= visits[n].ledger
      && VisitOk(walletId, visits[n], visits[n - 1].next)
  }

  function Collected(visits: seq<Visit>): seq<Entry> {
    if visits == [] then [] else Collected(visits[..|visits| - 1]) + visits[|visits| - 1].page
  }

  /** What a walk has so far: ascending keys up to the cursor, and every entry of the first ledger up to there. */
  ghost predicate Covers(first: set<Entry>, walletId: Id, all: seq<Entry>, next: Option<Key>) {
    && Ascending(all)
    && (forall e | e in first && e.walletId == walletId && (next.None? || !KeyLess(next.value, KeyOf(e))) :: e in all)
    && (next.Some? ==> forall e | e in all :: !KeyLess(next.value, KeyOf(e)))
  }

  lemma PageCovers(first: set<Entry>, walletId: Id, all: seq<Entry>, after: Option<Key>, v: Visit)
    requires Covers(first, walletId, all, after) && (after.None? ==> all == [])
    requires IsPage(v.ledger, walletId, after, PageSize(v.limit), v.page, v.next) && first <= v.ledger
    ensures Covers(first, walletId, all + v.page, v.next)
  {
    AscendingJoined(all, after, v.page);
    LastIsGreatest(v.page);
    forall e | e in first && e.walletId == walletId && (v.next.None? || !KeyLess(v.next.value, KeyOf(e)))
      ensures e in all + v.page
    {
      if after.Some? && !KeyLess(after.value, KeyOf(e)) {
        assert e in all;
      } else {
        assert e in Matching(v.ledger, walletId, after);
      }
    }
    if v.next.Some? {
      forall e | e in all + v.page
        ensures !KeyLess(v.next.value, KeyOf(e))
      {
        if e in all {
          BeforePage(all, after, v.page, e);
          KeyOrder(KeyOf(e), v.next.value);
        }
      }
    }
  }

  lemma LastIsGreatest(es: seq<Entry>)
    requires Ascending(es)
    ensures es != [] ==> forall e | e in es :: !KeyLess(KeyOf(es[|es| - 1]), KeyOf(e))
  {
    if es != [] {
      forall e | e in es
        ensures !KeyLess(KeyOf(es[|es| - 1]), KeyOf(e))
      {
        var i :| 0 <= i < |es| && es[i] == e;
        KeyOrder(KeyOf(e), KeyOf(es[|es| - 1]));
      }
    }
  }

  lemma BeforePage(all: seq<Entry>, after: Option<Key>, page: seq<Entry>, e: Entry)
    requires after.Some? && e in all && (forall x | x in all :: !KeyLess(after.value, KeyOf(x)))
    requires forall x | x in page :: KeyLess(after.value, KeyOf(x))
    ensures forall x | x in page :: KeyLess(KeyOf(e), KeyOf(x))
  {
    forall x | x in page
      ensures KeyLess(KeyOf(e), KeyOf(x))
    {
      KeyOrder(KeyOf(e), after.value);
      if KeyLess(KeyOf(e), after.value) {
        KeyLessTransitive(KeyOf(e), after.value, KeyOf(x));
      }
    }
  }

  lemma AscendingJoined(all: seq<Entry>, after: Option<Key>, page: seq<Entry>)
    requires Ascending(all) && Ascending(page) && (after.None? ==> all == [])
    requires after.Some? ==> (forall x | x in all :: !KeyLess(after.value, KeyOf(x))) && (forall x | x in page :: KeyLess(after.value, KeyOf(x)))
    ensures Ascending(all + page)
  {
    var es := all + page;
    forall i, j | 0 <= i < j < |es|
      ensures KeyLess(KeyOf(es[i]), KeyOf(es[j]))
    {
      if i < |all| <= j {
        assert all[i] in all && page[j - |all|] in page;
        BeforePage(all, after, page, all[i]);
      }
    }
  }

  lemma {:induction false} LedgerOnlyGrows(walletId: Id, visits: seq<Visit>)
    requires visits != [] && IsWalk(walletId, visits)
    ensures visits[0].ledger <= visits[|visits| - 1].ledger
  {
    if |visits| > 1 {
      LedgerOnlyGrows(walletId, visits[..|visits| - 1]);
    }
  }

  lemma {:induction false} WalkCovers(walletId: Id, visits: seq<Visit>)
    requires visits != [] && IsWalk(walletId, visits)
    ensures Covers(visits[0].ledger, walletId, Collected(visits), visits[|visits| - 1].next)
  {
    hide IsPage, Covers;
    var n := |visits| - 1;
    var front := visits[..n];
    LedgerOnlyGrows(walletId, visits);
    if n == 0 {
      FirstPageCovers(walletId, visits[0]);
      assert Collected(visits[..0]) == [];
      assert Collected(visits) == visits[0].page;
    } else {
      WalkCovers(walletId, front);
      PageCovers(visits[0].ledger, walletId, Collected(front), visits[n - 1].next, visits[n]);
    }
  }

  lemma FirstPageCovers(walletId: Id, v: Visit)
    requires IsPage(v.ledger, walletId, None, PageSize(v.limit), v.page, v.next)
    ensures Covers(v.ledger, walletId, v.page, v.next)
  {
    LastIsGreatest(v.page);
  }

  /** A walk, however it is cut into pages and whatever is appended meanwhile, yields strictly increasing keys (so no
      entry twice), and if it ends, every entry that was there at its first page. */
  lemma WalkIsComplete(walletId: Id, visits: seq<Visit>)
    requires visits != [] && IsWalk(walletId, visits)
    ensures Ascending(Collected(visits))
    ensures forall i, j | 0 <= i < j < |Collected(visits)| :: Collected(visits)[i] != Collected(visits)[j]
    ensures visits[|visits| - 1].next == None ==>
      forall e | e in visits[0].ledger && e.walletId == walletId :: e in Collected(visits)
  {
    hide IsWalk, IsPage;
    WalkCovers(walletId, visits);
    var all := Collected(visits);
    forall i, j | 0 <= i < j < |all|
      ensures all[i] != all[j]
    {
      KeyOrder(KeyOf(all[i]), KeyOf(all[j]));
    }
  }
}
