/** Listing files page by page, against reading them one by one. */
module Listing {
  import opened Text

  type Id = nat

  /** The columns of a file row that visibility depends on; `owner` is nullable. */
  datatype Row = Row(id: Id, storage: Id, excluded: bool, visibility: string, owner: Option<Id>)

  /** core_customuser.system_name by user, and core_storageuser.may_read by (storage, user). */
  datatype Db = Db(rows: seq<Row>, systemName: map<Id, string>, mayRead: map<(Id, Id), bool>)

  /** The foreign keys behind the rows: an owner, and a user with a storage grant, exist. */
  ghost predicate KeysHold(db: Db) {
    && (forall r <- db.rows :: r.owner.Some? ==> r.owner.value in db.systemName)
    && (forall k <- db.mayRead :: k.1 in db.systemName)
    && (forall i, k :: 0 <= i < k < |db.rows| ==> db.rows[i].id != db.rows[k].id)
  }

  function StorageUserMayRead(db: Db, sid: Id, user: Id): bool {
    (sid, user) in db.mayRead && db.mayRead[(sid, user)]
  }

  // ---------- SQL conditions ----------

  /** SQL's three truth values. */
  datatype Truth = Yes | No | Unknown

  function Or(a: Truth, b: Truth): Truth {
    if a == Yes || b == Yes then Yes else if a == Unknown || b == Unknown then Unknown else No
  }

  function And(a: Truth, b: Truth): Truth {
    if a == No || b == No then No else if a == Unknown || b == Unknown then Unknown else Yes
  }

  function Equals<T(==)>(a: Option<T>, b: Option<T>): Truth {
    if a.None? || b.None? then Unknown else if a.value == b.value then Yes else No
  }

  /** IS DISTINCT FROM never yields NULL. */
  function IsDistinctFrom<T(==)>(a: Option<T>, b: Option<T>): Truth {
    if a == b then No else Yes
  }

  function Lookup(m: map<Id, string>, k: Option<Id>): Option<string> {
    if k.Some? && k.value in m then Some(m[k.value]) else None
  }

  /** The visibility clause for a viewer who is not an admin and may read; `o` is the joined owner. */
  function VisibilityClause(db: Db, r: Row, user: Id): Truth {
    var o := Lookup(db.systemName, r.owner);
    Or(Or(Equals(Some(r.visibility), Some("PUBLIC")),
          And(Equals(Some(r.visibility), Some("SYSTEM")), IsDistinctFrom(o, Lookup(db.systemName, Some(user))))),
       And(Equals(Some(r.visibility), Some("USER")), Equals(r.owner, Some(user))))
  }

  /** The rows the WHERE clause of ListFiles keeps: those for which it is true. */
  predicate Listed(db: Db, sid: Id, excluded: bool, admin: bool, user: Id, r: Row) {
    && r.storage == sid && r.excluded == excluded
    && (admin || (StorageUserMayRead(db, sid, user) && VisibilityClause(db, r, user) == Yes))
  }

  // ---------- Go conditions ----------

  /** The scanned string; a missing user leaves it empty. */
  function SystemNameOf(db: Db, user: Id): string {
    if user in db.systemName then db.systemName[user] else ""
  }

  predicate FileVisible(db: Db, r: Row, admin: bool, user: Id) {
    || admin
    || (StorageUserMayRead(db, r.storage, user)
        && (if r.visibility == "PUBLIC" then true
            else if r.visibility == "USER" then r.owner == Some(user)
            else if r.visibility == "SYSTEM"
            then r.owner.Some? && SystemNameOf(db, user) != SystemNameOf(db, r.owner.value)
            else false))
  }

  /** loadFileRow matches storage, id and trash flag. */
  predicate Gettable(db: Db, sid: Id, excluded: bool, admin: bool, user: Id, r: Row) {
    r.storage == sid && r.excluded == excluded && FileVisible(db, r, admin, user)
  }

  // ---------- Who sees what ----------

  /** The storage has a row for the user, and it says true. */
  ghost predicate Granted(db: Db, sid: Id, user: Id) {
    ((sid, user), true) in db.mayRead.Items
  }

  ghost predicate OfOtherSystem(db: Db, r: Row, user: Id) {
    && r.owner.Some? && r.owner.value in db.systemName && user in db.systemName
    && db.systemName[r.owner.value] != db.systemName[user]
  }

  /** What a viewer is given of one storage and one side of the trash: an admin everything, somebody without a grant
      nothing, everybody else the public files, their own, and those of other systems. */
  ghost predicate Sees(db: Db, sid: Id, excluded: bool, admin: bool, user: Id, r: Row) {
    && r.storage == sid && r.excluded == excluded
    && (admin || (Granted(db, sid, user) && (
          || r.visibility == "PUBLIC"
          || (r.visibility == "USER" && r.owner == Some(user))
          || (r.visibility == "SYSTEM" && OfOtherSystem(db, r, user)))))
  }

  /** A SYSTEM file that nobody owns, in a storage the viewer may read. */
  ghost predicate Orphaned(db: Db, sid: Id, excluded: bool, admin: bool, user: Id, r: Row) {
    && r.storage == sid && r.excluded == excluded && !admin && Granted(db, sid, user)
    && r.visibility == "SYSTEM" && r.owner == None
  }

  lemma GrantedIff(db: Db, sid: Id, user: Id)
    ensures StorageUserMayRead(db, sid, user) <==> Granted(db, sid, user)
  {
  }

  /** Reading gives exactly what the viewer sees, listing also the SYSTEM files that nobody owns. */
  lemma ShownIff(db: Db, sid: Id, excluded: bool, admin: bool, user: Id, r: Row)
    requires KeysHold(db) && r in db.rows
    ensures Gettable(db, sid, excluded, admin, user, r) <==> Sees(db, sid, excluded, admin, user, r)
    ensures Listed(db, sid, excluded, admin, user, r) <==>
              Sees(db, sid, excluded, admin, user, r) || Orphaned(db, sid, excluded, admin, user, r)
    ensures OrphanedSystemFile(db, sid, excluded, admin, user, r) <==> Orphaned(db, sid, excluded, admin, user, r)
  {
    GrantedIff(db, sid, user);
    if Granted(db, sid, user) { assert (sid, user) in db.mayRead; }
  }

  /** GetFile: the row with this id, if it is there and visible. */
  method GetFile(db: Db, sid: Id, id: Id, excluded: bool, admin: bool, user: Id) returns (f: Option<Row>)
    requires KeysHold(db)
    ensures f.Some? ==> f.value in db.rows && f.value.id == id && Gettable(db, sid, excluded, admin, user, f.value)
    ensures f.None? ==> forall r <- db.rows :: r.id == id ==> !Gettable(db, sid, excluded, admin, user, r)
    ensures f.Some? ==> Sees(db, sid, excluded, admin, user, f.value)
    ensures f.None? ==> forall r <- db.rows :: r.id == id ==> !Sees(db, sid, excluded, admin, user, r)
  {
    forall r | r in db.rows
      ensures Gettable(db, sid, excluded, admin, user, r) <==> Sees(db, sid, excluded, admin, user, r)
    {
      ShownIff(db, sid, excluded, admin, user, r);
    }
    f := None;
    var i := 0;
    while i < |db.rows|
      invariant 0 <= i <= |db.rows| && f == None
      invariant forall k :: 0 <= k < i ==>
          !(db.rows[k].id == id && db.rows[k].storage == sid && db.rows[k].excluded == excluded)
    {
      var r := db.rows[i];
      if r.id == id && r.storage == sid && r.excluded == excluded {
        return if FileVisible(db, r, admin, user) then Some(r) else None;
      }
      i := i + 1;
    }
  }

  /** The one disagreement between the two: a SYSTEM file whose owner is gone is listed, since NULL is
      distinct from the viewer's system, and cannot be read. */
  predicate OrphanedSystemFile(db: Db, sid: Id, excluded: bool, admin: bool, user: Id, r: Row) {
    && r.storage == sid && r.excluded == excluded && !admin && StorageUserMayRead(db, sid, user)
    && r.visibility == "SYSTEM" && r.owner.None?
  }

  /** Listing and reading agree on a row exactly when it is not an orphaned SYSTEM file, and they then
      disagree in one direction: listed, not gettable. */
  lemma ListedIffGettable(db: Db, sid: Id, excluded: bool, admin: bool, user: Id, r: Row)
    requires KeysHold(db) && r in db.rows
    ensures (Listed(db, sid, excluded, admin, user, r) <==> Gettable(db, sid, excluded, admin, user, r))
            <==> !OrphanedSystemFile(db, sid, excluded, admin, user, r)
    ensures Gettable(db, sid, excluded, admin, user, r) ==> Listed(db, sid, excluded, admin, user, r)
  {
    if StorageUserMayRead(db, sid, user) {
      assert (sid, user) in db.mayRead;
    }
  }

  /** A concrete row where they part. */
  lemma OrphanIsListedNotGettable()
    ensures var r := Row(1, 7, false, "SYSTEM", None);
            var db := Db([r], map[5 := "sys"], map[(7, 5) := true]);
            && KeysHold(db)
            && Listed(db, 7, false, false, 5, r) && !Gettable(db, 7, false, false, 5, r)
  {
  }

  // ---------- Pages ----------

  /** The rows of a listing in the total order of the query (created_at, ties resolved the same way). */
  function Matching(db: Db, sid: Id, excluded: bool, admin: bool, user: Id, n: nat): (out: seq<Row>)
    requires n <= |db.rows|
    ensures |out| <= n
  {
    if n == 0 then []
    else
      Matching(db, sid, excluded, admin, user, n - 1)
      + if Listed(db, sid, excluded, admin, user, db.rows[n - 1]) then [db.rows[n - 1]] else []
  }

  function AllMatching(db: Db, sid: Id, excluded: bool, admin: bool, user: Id): seq<Row> {
    Matching(db, sid, excluded, admin, user, |db.rows|)
  }

  function ClampLimit(limit: int): nat {
    if limit <= 0 || limit > 500 then 100 else limit
  }

  function Slice<T>(s: seq<T>, offset: nat, limit: nat): seq<T> {
    if offset >= |s| then [] else s[offset..if offset + limit > |s| then |s| else offset + limit]
  }

  lemma SliceGrows<T>(s: seq<T>, x: T, offset: nat, limit: nat)
    ensures Slice(s + [x], offset, limit)
         == Slice(s, offset, limit) + if offset <= |s| < offset + limit then [x] else []
  {
  }

  ghost predicate Rising(at: seq<nat>) {
    forall i, k | 0 <= i < k < |at| :: at[i] < at[k]
  }

  /** The positions of the rows that a listing shows, in order. */
  ghost predicate AreShown(at: seq<nat>, db: Db, sid: Id, excluded: bool, admin: bool, user: Id, n: nat)
    requires n <= |db.rows|
  {
    && Rising(at) && (forall i <- at :: i < n)
    && forall i | 0 <= i < n :: i in at <==>
        Sees(db, sid, excluded, admin, user, db.rows[i]) || Orphaned(db, sid, excluded, admin, user, db.rows[i])
  }

  /** The page of a listing: of the rows it shows, in their order, those from the offset on, as many as the limit says,
      or 100 if the limit is not between 1 and 500; and their number in all. */
  ghost predicate IsPage(items: seq<Row>, total: nat, db: Db, sid: Id, excluded: bool, admin: bool, user: Id,
                         limit: int, offset: int)
  {
    exists at: seq<nat> :: AreShown(at, db, sid, excluded, admin, user, |db.rows|) && total == |at|
      && ArePicked(items, db.rows, at, if offset < 0 then 0 else offset, if 1 <= limit <= 500 then limit else 100)
  }

  /** The rows at these positions, `skip` of them left out and at most `size` of them taken. */
  ghost predicate ArePicked(items: seq<Row>, rows: seq<Row>, at: seq<nat>, skip: nat, size: nat) {
    var n := |at|;
    && |items| == (if n <= skip then 0 else if n - skip < size then n - skip else size)
    && forall k | 0 <= k < |items| :: at[skip + k] < |rows| && items[k] == rows[at[skip + k]]
  }

  lemma SlicePicks(all: seq<Row>, rows: seq<Row>, at: seq<nat>, skip: nat, size: nat)
    requires |all| == |at| && forall k | 0 <= k < |all| :: at[k] < |rows| && all[k] == rows[at[k]]
    ensures ArePicked(Slice(all, skip, size), rows, at, skip, size)
  {
  }

  lemma {:induction false} MatchingAt(db: Db, sid: Id, excluded: bool, admin: bool, user: Id, n: nat)
    returns (at: seq<nat>)
    requires n <= |db.rows| && KeysHold(db)
    ensures AreShown(at, db, sid, excluded, admin, user, n)
    ensures var out := Matching(db, sid, excluded, admin, user, n);
      |out| == |at| && forall k | 0 <= k < |out| :: at[k] < |db.rows| && out[k] == db.rows[at[k]]
  {
    at := [];
    if n > 0 {
      at := MatchingAt(db, sid, excluded, admin, user, n - 1);
      var pre := at;
      ShownIff(db, sid, excluded, admin, user, db.rows[n - 1]);
      if Listed(db, sid, excluded, admin, user, db.rows[n - 1]) { at := pre + [n - 1]; }
      forall i, k | 0 <= i < k < |at| ensures at[i] < at[k] { assert i < |pre| ==> pre[i] in pre; }
      forall k | 0 <= k < |at| ensures at[k] < n { assert k < |pre| ==> pre[k] in pre; }
    }
  }

  lemma SliceIsPage(db: Db, sid: Id, excluded: bool, admin: bool, user: Id, limit: int, offset: int)
    requires KeysHold(db)
    ensures var all := AllMatching(db, sid, excluded, admin, user);
      IsPage(Slice(all, if offset < 0 then 0 else offset, ClampLimit(limit)), |all|, db, sid, excluded, admin, user,
             limit, offset)
  {
    var at := MatchingAt(db, sid, excluded, admin, user, |db.rows|);
    SlicePicks(AllMatching(db, sid, excluded, admin, user), db.rows, at, if offset < 0 then 0 else offset,
               ClampLimit(limit));
  }

  /** Without a grant nothing is shown. */
  lemma PageForAll(items: seq<Row>, total: nat, db: Db, sid: Id, excluded: bool, admin: bool, user: Id, limit: int,
                   offset: int)
    requires IsPage(items, total, db, sid, excluded, admin, user, limit, offset)
    ensures !admin && !Granted(db, sid, user) ==> total == 0 && items == []
  {
    var at: seq<nat> :| AreShown(at, db, sid, excluded, admin, user, |db.rows|) && total == |at|
      && ArePicked(items, db.rows, at, if offset < 0 then 0 else offset, if 1 <= limit <= 500 then limit else 100);
    if at != [] { assert at[0] in at; }
  }

  /** ListFiles: the clamped page and the total count. */
  method ListFiles(db: Db, sid: Id, excluded: bool, admin: bool, user: Id, limit: int, offset: int)
    returns (items: seq<Row>, total: nat)
    ensures total == |AllMatching(db, sid, excluded, admin, user)|
    ensures items == Slice(AllMatching(db, sid, excluded, admin, user),
                           if offset < 0 then 0 else offset, ClampLimit(limit))
    ensures KeysHold(db) ==> IsPage(items, total, db, sid, excluded, admin, user, limit, offset)
    ensures KeysHold(db) && !admin && !Granted(db, sid, user) ==> total == 0 && items == []
  {
    var size := if limit <= 0 || limit > 500 then 100 else limit;
    var skip := if offset < 0 then 0 else offset;
    total, items := 0, [];
    ghost var found: seq<Row> := [];
    var i := 0;
    while i < |db.rows|
      invariant 0 <= i <= |db.rows|
      invariant found == Matching(db, sid, excluded, admin, user, i)
      invariant total == |found| && items == Slice(found, skip, size)
    {
      if Listed(db, sid, excluded, admin, user, db.rows[i]) {
        SliceGrows(found, db.rows[i], skip, size);
        found := found + [db.rows[i]];
        if skip <= total < skip + size { items := items + [db.rows[i]]; }
        total := total + 1;
      }
      i := i + 1;
    }
    if KeysHold(db) {
      SliceIsPage(db, sid, excluded, admin, user, limit, offset);
      PageForAll(items, total, db, sid, excluded, admin, user, limit, offset);
    }
  }

  /** The (limit, offset) pair a link carries. */
  datatype Link = Link(limit: int, offset: int)

  function NextLink(total: nat, limit: int, offset: int): Option<Link> {
    var l := if limit <= 0 then 100 else limit;
    if offset + l < total then Some(Link(l, offset + l)) else None
  }

  function PreviousLink(limit: int, offset: int): Option<Link> {
    var l := if limit <= 0 then 100 else limit;
    if offset > 0 then Some(Link(l, if offset - l < 0 then 0 else offset - l)) else None
  }

  /** Following `next` from a page until there is none, and gluing the pages together. */
  function Walk<T>(all: seq<T>, limit: int, offset: nat): seq<T>
    decreases |all| - offset
  {
    Slice(all, offset, ClampLimit(limit)) +
    match NextLink(|all|, limit, offset)
    case None => []
    case Some(link) => Walk(all, link.limit, link.offset)
  }

  lemma WalkDefaults<T>(all: seq<T>, limit: int, offset: nat)
    requires limit <= 0
    ensures Walk(all, limit, offset) == Walk(all, 100, offset)
  {
  }

  lemma PageThenRest<T>(all: seq<T>, offset: nat, limit: nat)
    requires offset <= |all|
    ensures offset + limit < |all| ==> Slice(all, offset, limit) + all[offset + limit..] == all[offset..]
    ensures offset + limit >= |all| ==> Slice(all, offset, limit) == all[offset..]
  {
  }

  lemma {:induction false} WalkCovers<T>(all: seq<T>, limit: nat, offset: nat)
    requires 1 <= limit <= 500 && offset <= |all|
    ensures Walk(all, limit, offset) == all[offset..]
    decreases |all| - offset
  {
    PageThenRest(all, offset, limit);
    if offset + limit < |all| {
      WalkCovers(all, limit, offset + limit);
    }
  }

  /** The page links enumerate the listing exactly once, in order, exactly when the requested limit is one
      that ListFiles does not clamp, or everything fits on one clamped page. */
  lemma WalkEnumerates<T>(all: seq<T>, limit: int)
    ensures Walk(all, limit, 0) == all <==> limit <= 500 || |all| <= 100
  {
    if limit <= 500 {
      if limit <= 0 { WalkDefaults(all, limit, 0); }
      WalkCovers(all, if limit <= 0 then 100 else limit, 0);
      assert all[0..] == all;
    } else if |all| > 100 {
      WalkIsShort(all, limit, 0);
    } else {
      assert Slice(all, 0, 100) == all;
    }
  }

  /** Above the clamp every page loses rows: a walk step of more than 500 delivers at most 100. */
  lemma {:induction false} WalkIsShort<T>(all: seq<T>, limit: int, offset: nat)
    requires limit > 500 && offset < |all|
    ensures |Walk(all, limit, offset)| <= |all| - offset
    ensures |all| - offset > 100 ==> |Walk(all, limit, offset)| < |all| - offset
    decreases |all| - offset
  {
    if offset + limit < |all| {
      WalkIsShort(all, limit, offset + limit);
    }
  }

  /** `previous` undoes `next`. */
  lemma PreviousUndoesNext(total: nat, limit: int, offset: nat)
    requires NextLink(total, limit, offset).Some?
    ensures var next := NextLink(total, limit, offset).value;
            PreviousLink(next.limit, next.offset) == Some(Link(next.limit, offset))
  {
  }

  lemma {:induction false} MatchingIsListed(db: Db, sid: Id, excluded: bool, admin: bool, user: Id, n: nat)
    requires n <= |db.rows| && KeysHold(db)
    ensures var out := Matching(db, sid, excluded, admin, user, n);
            && (forall r :: r in out <==> r in db.rows[..n] && Listed(db, sid, excluded, admin, user, r))
            && (forall i, k :: 0 <= i < k < |out| ==> out[i].id != out[k].id)
  {
    if n > 0 {
      MatchingIsListed(db, sid, excluded, admin, user, n - 1);
      assert db.rows[..n] == db.rows[..n - 1] + [db.rows[n - 1]];
      var out := Matching(db, sid, excluded, admin, user, n - 1);
      forall i | 0 <= i < |out| ensures out[i].id != db.rows[n - 1].id {
        assert out[i] in db.rows[..n - 1];
      }
    }
  }

  /** What a reader sees by following `next`: every file GetFile would give them, each once, and besides
      those only SYSTEM files without an owner. */
  lemma WalkMatchesGetFile(db: Db, sid: Id, excluded: bool, admin: bool, user: Id, limit: int)
    requires KeysHold(db) && (limit <= 500 || |AllMatching(db, sid, excluded, admin, user)| <= 100)
    ensures var seen := Walk(AllMatching(db, sid, excluded, admin, user), limit, 0);
            && (forall i, k :: 0 <= i < k < |seen| ==> seen[i].id != seen[k].id)
            && forall r <- db.rows :: r in seen <==>
                 Gettable(db, sid, excluded, admin, user, r) || OrphanedSystemFile(db, sid, excluded, admin, user, r)
    ensures var seen := Walk(AllMatching(db, sid, excluded, admin, user), limit, 0);
            forall r <- db.rows :: r in seen <==>
              Sees(db, sid, excluded, admin, user, r) || Orphaned(db, sid, excluded, admin, user, r)
  {
    var all := AllMatching(db, sid, excluded, admin, user);
    WalkEnumerates(all, limit);
    MatchingIsListed(db, sid, excluded, admin, user, |db.rows|);
    assert db.rows[..|db.rows|] == db.rows;
    forall r | r in db.rows
      ensures r in all <==>
                Gettable(db, sid, excluded, admin, user, r) || OrphanedSystemFile(db, sid, excluded, admin, user, r)
    {
      ListedIffGettable(db, sid, excluded, admin, user, r);
    }
    forall r | r in db.rows
      ensures r in all <==> Sees(db, sid, excluded, admin, user, r) || Orphaned(db, sid, excluded, admin, user, r)
    {
      ShownIff(db, sid, excluded, admin, user, r);
    }
  }
}
