/** The `useContacts` hook over the `emergency_contacts` table: fetch (the
    user's rows, primary first, then oldest first), add (the first contact
    becomes primary, an empty relationship is stored as null), delete by id,
    and set-primary (clear the flag on all of the user's rows, then set it on
    one).

    The table is a class of its own, because it is shared by every screen that
    uses the hook; the database issues ids in increasing order and stamps each
    insert with the clock reading it is given. Whether a database call fails is
    a parameter of each operation. */
module Contacts {
  import opened Js

  /** A row of `emergency_contacts`. `createdAt` and `updatedAt` are instants. */
  datatype Contact = Contact(
    id: nat,
    userId: string,
    name: string,
    phoneNumber: string,
    relationship: Option<string>,
    isPrimary: bool,
    createdAt: int,
    updatedAt: int)

  /** What the form hands to `addContact`. */
  datatype NewContact = NewContact(name: string, phoneNumber: string, relationship: string)

  /** The columns an insert supplies; the database fills in id and timestamps. */
  datatype Draft = Draft(
    userId: string,
    name: string,
    phoneNumber: string,
    relationship: Option<string>,
    isPrimary: bool)

  // ---------------------------------------------------------------------------
  // Selection and ordering

  /** `.eq("user_id", userId)`: the user's rows in table order. */
  function OwnedBy(rows: seq<Contact>, userId: string): (r: seq<Contact>)
    ensures |r| <= |rows|
    ensures forall c :: c in r <==> c in rows && c.userId == userId
  {
    if rows == [] then []
    else if rows[0].userId == userId then [rows[0]] + OwnedBy(rows[1..], userId)
    else OwnedBy(rows[1..], userId)
  }

  lemma {:induction false} OwnedByAppend(rows: seq<Contact>, c: Contact, userId: string)
    ensures OwnedBy(rows + [c], userId) == OwnedBy(rows, userId) + (if c.userId == userId then [c] else [])
  {
    if rows == [] {
      assert rows + [c] == [c];
    } else {
      assert (rows + [c])[1..] == rows[1..] + [c];
      OwnedByAppend(rows[1..], c, userId);
    }
  }

  /** The fetch order: `.order("is_primary", {ascending: false})` then
      `.order("created_at", {ascending: true})`. */
  predicate Precedes(a: Contact, b: Contact) {
    (a.isPrimary && !b.isPrimary) || (a.isPrimary == b.isPrimary && a.createdAt <= b.createdAt)
  }

  predicate Ordered(s: seq<Contact>) {
    forall i, j :: 0 <= i < j < |s| ==> Precedes(s[i], s[j])
  }

  /** `Precedes` is total: of two rows, one may come first. */
  lemma PrecedesTotal(a: Contact, b: Contact)
    ensures Precedes(a, b) || Precedes(b, a)
  {
  }

  /** A row that precedes every row of an ordered list may be put in front of it. */
  lemma PrependOrdered(x: Contact, s: seq<Contact>)
    requires Ordered(s)
    requires forall y :: y in s ==> Precedes(x, y)
    ensures Ordered([x] + s)
  {
    var r := [x] + s;
    forall i, j | 0 <= i < j < |r| ensures Precedes(r[i], r[j]) {
      if i == 0 {
        assert r[j] == s[j - 1];
      } else {
        assert r[i] == s[i - 1] && r[j] == s[j - 1];
      }
    }
  }

  lemma OrderedTail(s: seq<Contact>)
    requires Ordered(s) && s != []
    ensures Ordered(s[1..])
    ensures forall y :: y in s[1..] ==> Precedes(s[0], y)
  {
    var tail := s[1..];
    forall i, j | 0 <= i < j < |tail| ensures Precedes(tail[i], tail[j]) {
      assert tail[i] == s[i + 1] && tail[j] == s[j + 1];
    }
    forall y | y in tail ensures Precedes(s[0], y) {
      var j :| 0 <= j < |tail| && tail[j] == y;
      assert s[j + 1] == y;
    }
  }

  /** A row that precedes the head of an ordered list may go in front of it. */
  lemma PrependBeforeHead(c: Contact, s: seq<Contact>)
    requires Ordered(s) && s != [] && Precedes(c, s[0])
    ensures Ordered([c] + s)
  {
    OrderedTail(s);
    PrependOrdered(c, s);
  }

  /** The head of an ordered list may go in front of the tail with `c` inserted. */
  lemma PrependHeadAfterInsert(c: Contact, s: seq<Contact>, rest: seq<Contact>)
    requires Ordered(s) && s != [] && !Precedes(c, s[0])
    requires Ordered(rest) && multiset(rest) == multiset(s[1..]) + multiset{c}
    ensures Ordered([s[0]] + rest)
    ensures multiset([s[0]] + rest) == multiset(s) + multiset{c}
  {
    PrecedesTotal(c, s[0]);
    OrderedTail(s);
    forall y | y in rest ensures Precedes(s[0], y) {
      assert y in multiset(rest);
    }
    PrependOrdered(s[0], rest);
    assert s == [s[0]] + s[1..];
  }

  function InsertOrdered(c: Contact, s: seq<Contact>): (r: seq<Contact>)
    requires Ordered(s)
    ensures |r| == |s| + 1
    ensures Ordered(r)
    ensures multiset(r) == multiset(s) + multiset{c}
  {
    if s == [] then [c]
    else if Precedes(c, s[0]) then
      PrependBeforeHead(c, s);
      [c] + s
    else
      OrderedTail(s);
      var rest := InsertOrdered(c, s[1..]);
      PrependHeadAfterInsert(c, s, rest);
      [s[0]] + rest
  }

  /** The database's sort, as a stable insertion sort. */
  function SortForDisplay(s: seq<Contact>): (r: seq<Contact>)
    ensures |r| == |s|
    ensures Ordered(r)
    ensures multiset(r) == multiset(s)
  {
    if s == [] then []
    else
      assert s == [s[0]] + s[1..];
      InsertOrdered(s[0], SortForDisplay(s[1..]))
  }

  /** What the fetch query returns. */
  function Query(rows: seq<Contact>, userId: string): seq<Contact> {
    SortForDisplay(OwnedBy(rows, userId))
  }

  /** The fetched list holds exactly the user's rows, each once, primary
      first and then by creation time. */
  lemma QueryIsOrderedSelection(rows: seq<Contact>, userId: string)
    ensures var q := Query(rows, userId);
      && Ordered(q)
      && multiset(q) == multiset(OwnedBy(rows, userId))
      && (forall c :: c in q <==> c in rows && c.userId == userId)
  {
    var q := Query(rows, userId);
    forall c ensures c in q <==> c in OwnedBy(rows, userId) {
      assert c in q <==> c in multiset(q);
      assert c in OwnedBy(rows, userId) <==> c in multiset(OwnedBy(rows, userId));
    }
  }

  /** In an ordered list that holds a primary contact, the first one is primary. */
  lemma PrimaryComesFirst(s: seq<Contact>, k: nat)
    requires Ordered(s)
    requires k < |s| && s[k].isPrimary
    ensures s[0].isPrimary
  {
    if k > 0 {
      assert Precedes(s[0], s[k]);
    }
  }

  // ---------------------------------------------------------------------------
  // Primary flags

  /** Number of primary rows in `s`. */
  function PrimaryCount(s: seq<Contact>): (n: nat)
    ensures n <= |s|
  {
    if s == [] then 0 else (if s[0].isPrimary then 1 else 0) + PrimaryCount(s[1..])
  }

  lemma {:induction false} PrimaryCountAppend(s: seq<Contact>, c: Contact)
    ensures PrimaryCount(s + [c]) == PrimaryCount(s) + (if c.isPrimary then 1 else 0)
  {
    if s == [] {
      assert s + [c] == [c];
    } else {
      assert (s + [c])[1..] == s[1..] + [c];
      PrimaryCountAppend(s[1..], c);
    }
  }

  /** At most one of the user's rows is primary. */
  ghost predicate AtMostOnePrimary(rows: seq<Contact>, userId: string) {
    PrimaryCount(OwnedBy(rows, userId)) <= 1
  }

  /** Ids are issued in increasing order, so they increase along the table. */
  ghost predicate IncreasingIds(rows: seq<Contact>) {
    forall i, j :: 0 <= i < j < |rows| ==> rows[i].id < rows[j].id
  }

  /** `.update({is_primary: false}).eq("user_id", userId)`. */
  function ClearPrimary(rows: seq<Contact>, userId: string): (r: seq<Contact>)
    ensures |r| == |rows|
    ensures forall i :: 0 <= i < |rows| ==>
      r[i].(isPrimary := rows[i].isPrimary) == rows[i]
      && r[i].isPrimary == (rows[i].isPrimary && rows[i].userId != userId)
  {
    seq(|rows|, i requires 0 <= i < |rows| =>
      if rows[i].userId == userId then rows[i].(isPrimary := false) else rows[i])
  }

  /** `.update({is_primary: true}).eq("id", contactId)`. */
  function MarkPrimary(rows: seq<Contact>, id: nat): (r: seq<Contact>)
    ensures |r| == |rows|
    ensures forall i :: 0 <= i < |rows| ==>
      r[i].(isPrimary := rows[i].isPrimary) == rows[i]
      && r[i].isPrimary == (rows[i].isPrimary || rows[i].id == id)
  {
    seq(|rows|, i requires 0 <= i < |rows| =>
      if rows[i].id == id then rows[i].(isPrimary := true) else rows[i])
  }

  /** In a list with increasing ids where exactly the row with `id` is primary
      and that row is present, exactly one row is primary. */
  lemma {:induction false} OnlyMarkedIsPrimary(s: seq<Contact>, id: nat)
    requires IncreasingIds(s)
    requires forall i :: 0 <= i < |s| ==> (s[i].isPrimary <==> s[i].id == id)
    ensures PrimaryCount(s) == (if exists i :: 0 <= i < |s| && s[i].id == id then 1 else 0)
  {
    if s != [] {
      OnlyMarkedIsPrimary(s[1..], id);
      if s[0].id == id {
        assert forall i :: 1 <= i < |s| ==> s[i].id != id;
        assert !exists i :: 0 <= i < |s[1..]| && s[1..][i].id == id;
      } else {
        assert (exists i :: 0 <= i < |s| && s[i].id == id) <==>
               (exists i :: 0 <= i < |s[1..]| && s[1..][i].id == id) by {
          forall i | 1 <= i < |s| ensures s[i] == s[1..][i - 1] { }
        }
      }
    }
  }

  lemma {:induction false} OwnedByIncreasing(rows: seq<Contact>, userId: string)
    requires IncreasingIds(rows)
    ensures IncreasingIds(OwnedBy(rows, userId))
  {
    if rows != [] {
      OwnedByIncreasing(rows[1..], userId);
      var rest := OwnedBy(rows[1..], userId);
      forall c | c in rest ensures rows[0].id < c.id {
        var k :| 0 <= k < |rows[1..]| && rows[1..][k] == c;
        assert rows[k + 1] == c;
      }
    }
  }

  /** After clearing the user's flags and then marking one of the user's rows,
      that row is the user's only primary contact, and nothing but the flags
      has changed. */
  lemma SetPrimaryLeavesOnePrimary(rows: seq<Contact>, userId: string, id: nat)
    requires IncreasingIds(rows)
    requires exists k :: 0 <= k < |rows| && rows[k].id == id && rows[k].userId == userId
    ensures var after := MarkPrimary(ClearPrimary(rows, userId), id);
      && |after| == |rows|
      && (forall i :: 0 <= i < |rows| ==> after[i].(isPrimary := rows[i].isPrimary) == rows[i])
      && (forall c :: c in OwnedBy(after, userId) ==> (c.isPrimary <==> c.id == id))
      && PrimaryCount(OwnedBy(after, userId)) == 1
  {
    var after := MarkPrimary(ClearPrimary(rows, userId), id);
    var k :| 0 <= k < |rows| && rows[k].id == id && rows[k].userId == userId;
    assert IncreasingIds(after);
    var owned := OwnedBy(after, userId);
    OwnedByIncreasing(after, userId);
    forall i | 0 <= i < |owned| ensures owned[i].isPrimary <==> owned[i].id == id {
      assert owned[i] in after;
    }
    assert after[k] in owned;
    OnlyMarkedIsPrimary(owned, id);
  }

  /** An ordered list holding the same rows as a list in which exactly the
      rows with `id` are primary, one of them present, starts with such a row. */
  lemma OrderedStartsWithMarked(q: seq<Contact>, owned: seq<Contact>, id: nat)
    requires Ordered(q)
    requires forall c :: c in q <==> c in owned
    requires forall c :: c in owned ==> (c.isPrimary <==> c.id == id)
    requires exists c :: c in owned && c.id == id
    ensures q != [] && q[0].id == id && q[0].isPrimary
  {
    var c :| c in owned && c.id == id;
    assert c in q;
    var j :| 0 <= j < |q| && q[j] == c;
    PrimaryComesFirst(q, j);
    assert q[0] in owned;
  }

  /** After a complete set-primary, the fetched list starts with the new
      primary contact. */
  lemma SetPrimaryThenFetch(rows: seq<Contact>, userId: string, id: nat)
    requires IncreasingIds(rows)
    requires exists k :: 0 <= k < |rows| && rows[k].id == id && rows[k].userId == userId
    ensures var q := Query(MarkPrimary(ClearPrimary(rows, userId), id), userId);
      q != [] && q[0].id == id && q[0].isPrimary
  {
    var after := MarkPrimary(ClearPrimary(rows, userId), id);
    SetPrimaryLeavesOnePrimary(rows, userId, id);
    var owned := OwnedBy(after, userId);
    QueryIsOrderedSelection(after, userId);
    var k :| 0 <= k < |rows| && rows[k].id == id && rows[k].userId == userId;
    assert after[k] in owned;
    OrderedStartsWithMarked(Query(after, userId), owned, id);
  }

  /** An add made while the cache reflects the table keeps at most one primary
      contact per user: the new row is primary only when the user had none. */
  lemma AddKeepsAtMostOnePrimary(rows: seq<Contact>, userId: string, c: Contact)
    requires AtMostOnePrimary(rows, userId)
    requires c.isPrimary == (|Query(rows, userId)| == 0)
    ensures AtMostOnePrimary(rows + [c], userId)
  {
    OwnedByAppend(rows, c, userId);
    var owned := OwnedBy(rows, userId);
    assert |Query(rows, userId)| == |owned|;
    if c.userId == userId {
      assert OwnedBy(rows + [c], userId) == owned + [c];
      PrimaryCountAppend(owned, c);
      if c.isPrimary {
        assert owned == [];
        assert PrimaryCount(owned) == 0;
      }
    } else {
      assert OwnedBy(rows + [c], userId) == owned;
    }
  }

  /** `.delete().eq("id", contactId)`. */
  function WithoutId(rows: seq<Contact>, id: nat): (r: seq<Contact>)
    ensures |r| <= |rows|
  {
    if rows == [] then []
    else if rows[0].id == id then WithoutId(rows[1..], id)
    else [rows[0]] + WithoutId(rows[1..], id)
  }

  /** What is left after a delete is exactly the rows with another id. */
  lemma {:induction false} WithoutIdMembers(rows: seq<Contact>, id: nat)
    ensures forall c :: c in WithoutId(rows, id) <==> c in rows && c.id != id
  {
    if rows != [] {
      WithoutIdMembers(rows[1..], id);
      assert rows == [rows[0]] + rows[1..];
    }
  }

  lemma TailIncreasing(rows: seq<Contact>)
    requires IncreasingIds(rows) && rows != []
    ensures IncreasingIds(rows[1..])
    ensures forall c :: c in rows[1..] ==> rows[0].id < c.id
  {
    var tail := rows[1..];
    forall i, j | 0 <= i < j < |tail| ensures tail[i].id < tail[j].id {
      assert tail[i] == rows[i + 1] && tail[j] == rows[j + 1];
    }
    forall c | c in tail ensures rows[0].id < c.id {
      var m :| 0 <= m < |tail| && tail[m] == c;
      assert rows[m + 1] == c;
    }
  }

  lemma PrependIncreasing(x: Contact, s: seq<Contact>)
    requires IncreasingIds(s)
    requires forall c :: c in s ==> x.id < c.id
    ensures IncreasingIds([x] + s)
  {
    var r := [x] + s;
    forall i, j | 0 <= i < j < |r| ensures r[i].id < r[j].id {
      assert r[j] == s[j - 1];
      if i > 0 { assert r[i] == s[i - 1]; }
    }
  }

  lemma {:induction false} WithoutIdIncreasing(rows: seq<Contact>, id: nat)
    requires IncreasingIds(rows)
    ensures IncreasingIds(WithoutId(rows, id))
  {
    if rows != [] {
      TailIncreasing(rows);
      WithoutIdIncreasing(rows[1..], id);
      WithoutIdMembers(rows[1..], id);
      if rows[0].id != id {
        PrependIncreasing(rows[0], WithoutId(rows[1..], id));
      }
    }
  }

  /** Deleting the id of row `k`, when no other row has that id, removes
      exactly that row; every other row is kept, in order. */
  lemma {:induction false} DeleteRemovesOne(rows: seq<Contact>, k: nat)
    requires k < |rows|
    requires forall i :: 0 <= i < |rows| && i != k ==> rows[i].id != rows[k].id
    ensures WithoutId(rows, rows[k].id) == rows[..k] + rows[k + 1..]
  {
    if k == 0 {
      DeleteHead(rows);
    } else {
      var tail := rows[1..];
      assert tail[k - 1] == rows[k];
      forall i | 0 <= i < |tail| && i != k - 1 ensures tail[i].id != tail[k - 1].id {
        assert tail[i] == rows[i + 1];
      }
      DeleteRemovesOne(tail, k - 1);
      DeleteBehindHead(rows, k);
    }
  }

  /** Deleting the head's id, held by no other row, leaves the tail. */
  lemma DeleteHead(rows: seq<Contact>)
    requires rows != []
    requires forall i :: 0 < i < |rows| ==> rows[i].id != rows[0].id
    ensures WithoutId(rows, rows[0].id) == rows[..0] + rows[1..]
  {
    var tail := rows[1..];
    forall c | c in tail ensures c.id != rows[0].id {
      var i :| 0 <= i < |tail| && tail[i] == c;
      assert c == rows[i + 1];
    }
    NoSuchIdKeepsAll(tail, rows[0].id);
    assert rows[..0] + tail == tail;
  }

  /** One step of the induction: the head is kept when it has another id. */
  lemma DeleteBehindHead(rows: seq<Contact>, k: nat)
    requires 0 < k < |rows|
    requires rows[0].id != rows[k].id
    requires WithoutId(rows[1..], rows[k].id) == rows[1..][..k - 1] + rows[1..][k..]
    ensures WithoutId(rows, rows[k].id) == rows[..k] + rows[k + 1..]
  {
    var tail := rows[1..];
    assert WithoutId(rows, rows[k].id) == [rows[0]] + WithoutId(tail, rows[k].id);
    SplitAround(rows, k);
    ConsAssoc(rows[0], tail[..k - 1], tail[k..]);
  }

  lemma SplitAround<T>(s: seq<T>, k: nat)
    requires 0 < k < |s|
    ensures s[..k] == [s[0]] + s[1..][..k - 1]
    ensures s[k + 1..] == s[1..][k..]
  {
  }

  lemma ConsAssoc<T>(x: T, a: seq<T>, b: seq<T>)
    ensures [x] + (a + b) == ([x] + a) + b
  {
  }

  /** With ids increasing along the table, deleting the id of any row removes
      exactly that row. */
  lemma DeleteByIdRemovesRow(rows: seq<Contact>, k: nat)
    requires IncreasingIds(rows)
    requires k < |rows|
    ensures WithoutId(rows, rows[k].id) == rows[..k] + rows[k + 1..]
  {
    DeleteRemovesOne(rows, k);
  }

  lemma {:induction false} NoSuchIdKeepsAll(rows: seq<Contact>, id: nat)
    requires forall c :: c in rows ==> c.id != id
    ensures WithoutId(rows, id) == rows
  {
    if rows != [] {
      assert forall c :: c in rows[1..] ==> c in rows;
      NoSuchIdKeepsAll(rows[1..], id);
      assert rows == [rows[0]] + rows[1..];
    }
  }

  /** `contact.relationship || null`. */
  function StoredRelationship(relationship: string): (r: Option<string>)
    ensures r.None? <==> relationship == ""
    ensures r.Some? ==> r.value == relationship
  {
    if relationship == "" then None else Some(relationship)
  }

  // ---------------------------------------------------------------------------
  // The table

  class Table {
    var rows: seq<Contact>
    var nextId: nat

    ghost predicate Valid()
      reads this
    {
      && IncreasingIds(rows)
      && (forall i :: 0 <= i < |rows| ==> rows[i].id < nextId)
    }

    constructor ()
      ensures Valid() && rows == []
    {
      rows := [];
      nextId := 0;
    }

    /** The query the hook's fetch runs. */
    function Select(userId: string): seq<Contact>
      reads this
    {
      Query(rows, userId)
    }

    /** An insert: the database assigns the next id and stamps the row with `now`. */
    method Insert(d: Draft, now: int, fails: bool) returns (ok: bool)
      requires Valid()
      modifies this
      ensures Valid()
      ensures ok == !fails
      ensures fails ==> rows == old(rows) && nextId == old(nextId)
      ensures !fails ==>
        && rows == old(rows) + [Contact(old(nextId), d.userId, d.name, d.phoneNumber, d.relationship, d.isPrimary, now, now)]
        && nextId == old(nextId) + 1
    {
      if fails {
        return false;
      }
      rows := rows + [Contact(nextId, d.userId, d.name, d.phoneNumber, d.relationship, d.isPrimary, now, now)];
      nextId := nextId + 1;
      ok := true;
    }

    method DeleteById(id: nat, fails: bool) returns (ok: bool)
      requires Valid()
      modifies this
      ensures Valid() && nextId == old(nextId)
      ensures ok == !fails
      ensures rows == if fails then old(rows) else WithoutId(old(rows), id)
    {
      if fails {
        return false;
      }
      WithoutIdIncreasing(rows, id);
      WithoutIdMembers(rows, id);
      rows := WithoutId(rows, id);
      ok := true;
    }

    method ClearPrimaryOf(userId: string, fails: bool) returns (ok: bool)
      requires Valid()
      modifies this
      ensures Valid() && nextId == old(nextId)
      ensures ok == !fails
      ensures rows == if fails then old(rows) else ClearPrimary(old(rows), userId)
    {
      if fails {
        return false;
      }
      rows := ClearPrimary(rows, userId);
      ok := true;
    }

    method MarkPrimaryById(id: nat, fails: bool) returns (ok: bool)
      requires Valid()
      modifies this
      ensures Valid() && nextId == old(nextId)
      ensures ok == !fails
      ensures rows == if fails then old(rows) else MarkPrimary(old(rows), id)
    {
      if fails {
        return false;
      }
      rows := MarkPrimary(rows, id);
      ok := true;
    }
  }

  // ---------------------------------------------------------------------------
  // The hook

  class ContactsHook {
    const userId: Option<string>
    const table: Table
    var contacts: seq<Contact>
    var loading: bool

    constructor (userId: Option<string>, table: Table)
      ensures this.userId == userId && this.table == table
      ensures contacts == [] && loading
    {
      this.userId := userId;
      this.table := table;
      contacts := [];
      loading := true;
    }

    /** `fetchContacts`: nothing without a user; otherwise the cache takes the
        query's rows unless it fails, and loading ends either way. */
    method FetchContacts(fails: bool)
      modifies this
      ensures !Truthy(userId) ==> contacts == old(contacts) && loading == old(loading)
      ensures Truthy(userId) ==> !loading
      ensures Truthy(userId) ==> contacts == if fails then old(contacts) else table.Select(userId.value)
    {
      if !Truthy(userId) {
        return;
      }
      if !fails {
        contacts := table.Select(userId.value);
      }
      loading := false;
    }

    /** `addContact`, followed by the refetch it starts. */
    method AddContact(c: NewContact, now: int, insertFails: bool, refetchFails: bool)
      requires table.Valid()
      modifies this, table
      ensures table.Valid()
      ensures !Truthy(userId) || insertFails ==>
        table.rows == old(table.rows) && table.nextId == old(table.nextId)
        && contacts == old(contacts) && loading == old(loading)
      ensures Truthy(userId) && !insertFails ==>
        && table.rows == old(table.rows) + [Contact(old(table.nextId), userId.value, c.name, c.phoneNumber,
                                                    StoredRelationship(c.relationship), |old(contacts)| == 0, now, now)]
        && !loading
        && contacts == if refetchFails then old(contacts) else table.Select(userId.value)
    {
      if !Truthy(userId) {
        return;
      }
      var draft := Draft(userId.value, c.name, c.phoneNumber, StoredRelationship(c.relationship), |contacts| == 0);
      var ok := table.Insert(draft, now, insertFails);
      if !ok {
        return;
      }
      FetchContacts(refetchFails);
    }

    /** `deleteContact`: deletes by id alone, then refetches. */
    method DeleteContact(id: nat, deleteFails: bool, refetchFails: bool)
      requires table.Valid()
      modifies this, table
      ensures table.Valid() && table.nextId == old(table.nextId)
      ensures deleteFails ==> table.rows == old(table.rows) && contacts == old(contacts) && loading == old(loading)
      ensures !deleteFails ==> table.rows == WithoutId(old(table.rows), id)
      ensures !deleteFails && !Truthy(userId) ==> contacts == old(contacts) && loading == old(loading)
      ensures !deleteFails && Truthy(userId) ==>
        !loading && contacts == if refetchFails then old(contacts) else table.Select(userId.value)
    {
      var ok := table.DeleteById(id, deleteFails);
      if !ok {
        return;
      }
      FetchContacts(refetchFails);
    }

    /** `setPrimaryContact`: clears the user's flags (its error is not
        checked), sets the flag on `id`, then refetches. */
    method SetPrimaryContact(id: nat, clearFails: bool, markFails: bool, refetchFails: bool)
      requires table.Valid()
      modifies this, table
      ensures table.Valid() && table.nextId == old(table.nextId)
      ensures !Truthy(userId) ==> table.rows == old(table.rows) && contacts == old(contacts) && loading == old(loading)
      ensures Truthy(userId) ==>
        var cleared := if clearFails then old(table.rows) else ClearPrimary(old(table.rows), userId.value);
        table.rows == if markFails then cleared else MarkPrimary(cleared, id)
      ensures Truthy(userId) && markFails ==> contacts == old(contacts) && loading == old(loading)
      ensures Truthy(userId) && !markFails ==>
        !loading && contacts == if refetchFails then old(contacts) else table.Select(userId.value)
      // The point of the operation: with both updates done and `id` one of the
      // user's rows, it is the user's only primary contact, and a successful
      // refetch puts it first.
      ensures (Truthy(userId) && !clearFails && !markFails
        && exists k :: 0 <= k < |old(table.rows)| && old(table.rows)[k].id == id && old(table.rows)[k].userId == userId.value)
        ==>
        && PrimaryCount(OwnedBy(table.rows, userId.value)) == 1
        && (forall c :: c in OwnedBy(table.rows, userId.value) ==> (c.isPrimary <==> c.id == id))
        && (!refetchFails ==> contacts != [] && contacts[0].id == id && contacts[0].isPrimary)
    {
      if !Truthy(userId) {
        return;
      }
      ghost var before := table.rows;
      var _ := table.ClearPrimaryOf(userId.value, clearFails);
      var ok := table.MarkPrimaryById(id, markFails);
      if !ok {
        return;
      }
      FetchContacts(refetchFails);
      if !clearFails && exists k :: 0 <= k < |before| && before[k].id == id && before[k].userId == userId.value {
        SetPrimaryLeavesOnePrimary(before, userId.value, id);
        SetPrimaryThenFetch(before, userId.value, id);
      }
    }
  }

  /** Because the first update's error is not checked, a failed clear followed
      by a successful mark can leave a user with two primary contacts. */
  lemma UncheckedClearCanLeaveTwoPrimaries()
    ensures var rows := [Contact(0, "u", "A", "1", None, true, 0, 0), Contact(1, "u", "B", "2", None, false, 1, 1)];
      PrimaryCount(OwnedBy(MarkPrimary(rows, 1), "u")) == 2
  {
    var rows := [Contact(0, "u", "A", "1", None, true, 0, 0), Contact(1, "u", "B", "2", None, false, 1, 1)];
    var after := MarkPrimary(rows, 1);
    assert after == [rows[0], rows[1].(isPrimary := true)];
    assert OwnedBy(after, "u") == after;
  }

  /** The primary flag of an add is decided from the cache, not the table: an
      add made while the cache is still empty (the initial fetch pending or
      failed) gives a user who already has a primary contact a second one. */
  lemma AddBeforeFetchCanLeaveTwoPrimaries()
    ensures var rows := [Contact(0, "u", "A", "1", None, true, 0, 0)];
      var cache: seq<Contact> := [];
      var added := Contact(1, "u", "B", "2", None, |cache| == 0, 1, 1);
      && Query(rows, "u") != cache
      && PrimaryCount(OwnedBy(rows + [added], "u")) == 2
  {
    var rows := [Contact(0, "u", "A", "1", None, true, 0, 0)];
    var added := Contact(1, "u", "B", "2", None, true, 1, 1);
    assert OwnedBy(rows + [added], "u") == rows + [added];
    assert |Query(rows, "u")| == 1;
  }
}
