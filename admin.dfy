/** The in-memory computations of controllers/Admin.controller.js: the
    profile-completion count, the pagination arithmetic of `getAllUsers`,
    the two toggles, the `deleteUser` guard, the bulk operations and the CSV
    export. The user collection is the `UserDb` of the account handlers. */
module Admin {
  import opened Wrappers
  import opened Text
  import opened Js
  import opened Users

  // ----- Profile completion ----------------------------------------------------

  /** The keys `getUserProfileCompletionStatus` looks at. */
  const KeysToCheck: seq<string> :=
    ["name", "email", "username", "age", "About", "avatar", "mobileNumber",
     "proficiency", "subjects", "classesOffered", "qualifications", "Address",
     "teachingExperiences", "isEmailVerified"]

  /** The denominator the handler divides by. */
  const TotalFields: nat := 15

  /** A non-empty array, `true`, or any other value that is not undefined,
      null or the empty string; so 0 and NaN count as filled. */
  predicate Filled(v: Value) {
    if v.Arr? then |v.items| > 0
    else if v.Bool? then v.b
    else v != Undefined && v != Null && v != Str("")
  }

  /** How many of `keys` are filled in the stored user. */
  function FilledCount(user: Value, keys: seq<string>): (n: nat)
    ensures n <= |keys|
  {
    if keys == [] then 0
    else FilledCount(user, keys[..|keys| - 1]) + (if Filled(Get(user, keys[|keys| - 1])) then 1 else 0)
  }

  /** `Math.round`: halves round up. */
  function Round(x: real): int {
    (x + 0.5).Floor
  }

  /** The completion percentage as the handler computes it. The quotients
      `k / 15 * 100` are a third away from any half, so rounding the exact
      quotient gives what rounding the floating-point one gives. */
  function Completion(filled: nat): int {
    Round(filled as real / TotalFields as real * 100.0)
  }

  /** The percentage over the number of keys actually checked. */
  function CorrectedCompletion(filled: nat): int {
    Round(filled as real / |KeysToCheck| as real * 100.0)
  }

  /** The handler on the stored user: the count and flags over the
      checked keys, then the rounded percentage. */
  method ProfileCompletion(user: Value) returns (completion: int, filled: nat, fieldStatus: map<string, bool>)
    ensures filled == FilledCount(user, KeysToCheck)
    ensures forall k :: k in fieldStatus <==> k in KeysToCheck
    ensures forall k :: k in fieldStatus ==> fieldStatus[k] == Filled(Get(user, k))
    ensures completion == Completion(filled)
  {
    filled, fieldStatus := CountFilled(user, KeysToCheck);
    completion := Round(filled as real / TotalFields as real * 100.0);
  }

  /** The `forEach` over the keys: a filled flag per key and the count of
      filled ones. */
  method CountFilled(user: Value, keys: seq<string>) returns (filled: nat, fieldStatus: map<string, bool>)
    ensures filled == FilledCount(user, keys)
    ensures forall k :: k in fieldStatus <==> k in keys
    ensures forall k :: k in fieldStatus ==> fieldStatus[k] == Filled(Get(user, k))
  {
    filled := 0;
    fieldStatus := map[];
    for i := 0 to |keys|
      invariant filled == FilledCount(user, keys[..i])
      invariant forall k :: k in fieldStatus <==> k in keys[..i]
      invariant forall k :: k in fieldStatus ==> fieldStatus[k] == Filled(Get(user, k))
    {
      var key := keys[i];
      var val := Get(user, key);
      var isFilled := false;
      if val.Arr? {
        isFilled := |val.items| > 0;
      } else if val.Bool? {
        isFilled := val.b == true;
      } else {
        isFilled := val != Undefined && val != Null && val != Str("");
      }
      fieldStatus := fieldStatus[key := isFilled];
      if isFilled {
        filled := filled + 1;
      }
      assert keys[..i + 1][..i] == keys[..i];
      assert keys[..i + 1] == keys[..i] + [key];
    }
    assert keys[..|keys|] == keys;
  }

  /** At most fourteen of the fifteen fields can be filled, so even a
      complete profile is reported at 93% and never at 100%. */
  lemma CompletionNeverFull(user: Value)
    ensures FilledCount(user, KeysToCheck) <= 14
    ensures Completion(FilledCount(user, KeysToCheck)) <= 93
    ensures FilledCount(user, KeysToCheck) == 14 ==> Completion(FilledCount(user, KeysToCheck)) == 93
  {
    var n := FilledCount(user, KeysToCheck);
    assert n as real / 15.0 * 100.0 <= 1400.0 / 15.0;
  }

  /** Over fourteen keys the percentage reaches 100 exactly when every key
      is filled. */
  lemma CorrectedCompletionFull(user: Value)
    ensures 0 <= CorrectedCompletion(FilledCount(user, KeysToCheck)) <= 100
    ensures CorrectedCompletion(FilledCount(user, KeysToCheck)) == 100 <==> FilledCount(user, KeysToCheck) == 14
  {
    var n := FilledCount(user, KeysToCheck);
    if n < 14 {
      assert n as real / 14.0 * 100.0 <= 1300.0 / 14.0;
    }
  }

  // ----- Pagination ------------------------------------------------------------

  const DefaultPage: int := 1
  const DefaultLimit: int := 10

  /** The `pagination` object of the `getAllUsers` response, with the
      number of documents skipped. */
  datatype Pagination = Pagination(skip: int, currentPage: int, totalPages: nat, totalUsers: nat,
                                   hasNext: bool, hasPrev: bool)

  /** `Math.ceil(total / limit)`. */
  function CeilDiv(total: nat, limit: nat): nat
    requires limit >= 1
  {
    (total + limit - 1) / limit
  }

  /** The page and limit query parameters (defaults 1 and 10) and the
      number of matching users. */
  function Paginate(page: Option<int>, limit: Option<int>, total: nat): Pagination
    requires limit.None? || limit.value >= 1
  {
    var p := page.GetOr(DefaultPage);
    var l := limit.GetOr(DefaultLimit);
    var pages := CeilDiv(total, l);
    Pagination((p - 1) * l, p, pages, total, p < pages, p > 1)
  }

  /** The page count is the least number of pages that holds every user. */
  lemma CeilDivBounds(total: nat, limit: nat)
    requires limit >= 1
    ensures total <= CeilDiv(total, limit) * limit
    ensures CeilDiv(total, limit) * limit < total + limit
    ensures total == 0 <==> CeilDiv(total, limit) == 0
  {
    var q, r := (total + limit - 1) / limit, (total + limit - 1) % limit;
    assert total + limit - 1 == q * limit + r;
  }

  /** Every user is on exactly one page between 1 and the page count: the
      page `k / limit + 1` shows the user at position `k`. */
  lemma PagesCoverUsers(k: nat, total: nat, limit: nat)
    requires limit >= 1 && k < total
    ensures var p := k / limit + 1;
      var pg := Paginate(Some(p), Some(limit), total);
      1 <= p <= pg.totalPages && pg.skip <= k < pg.skip + limit
  {
    var p := k / limit + 1;
    CeilDivBounds(total, limit);
    assert k == (k / limit) * limit + k % limit;
    var pages := CeilDiv(total, limit);
    if p > pages {
      assert (k / limit) >= pages;
      MulMonotone(pages, k / limit, limit);
      assert false;
    }
  }

  lemma MulMonotone(a: nat, b: nat, c: nat)
    requires a <= b
    ensures a * c <= b * c
  {
    var d := b - a;
    assert b * c == a * c + d * c;
  }

  /** `hasNext` says the next page is not empty, and without it nothing
      lies beyond the current page. */
  lemma HasNextMeansMore(page: int, total: nat, limit: nat)
    requires limit >= 1 && page >= 1
    ensures var pg := Paginate(Some(page), Some(limit), total);
      (pg.hasNext <==> page * limit < total)
      && (pg.hasPrev <==> page >= 2)
  {
    var pages := CeilDiv(total, limit);
    CeilDivBounds(total, limit);
    if page < pages {
      MulMonotone(page, pages - 1, limit);
      assert (pages - 1) * limit == pages * limit - limit;
    } else {
      MulMonotone(pages, page, limit);
    }
  }

  /** With no query parameters: page 1 of ten users each. */
  lemma PaginateDefaults(total: nat)
    ensures var pg := Paginate(None, None, total);
      pg.skip == 0 && pg.currentPage == 1 && !pg.hasPrev && (pg.hasNext <==> total > 10)
  {
    HasNextMeansMore(1, total, 10);
  }

  // ----- Toggles and deletion --------------------------------------------------

  function ToggledStatus(u: UserDoc): UserDoc {
    u.(isAccountDeactivated := !u.isAccountDeactivated)
  }

  function ToggledVerification(u: UserDoc): UserDoc {
    u.(isMentorVerified := !u.isMentorVerified)
  }

  /** Toggling twice restores the document, and a toggle changes only its
      own flag. */
  lemma TogglesAreInvolutions(u: UserDoc)
    ensures ToggledStatus(ToggledStatus(u)) == u
    ensures ToggledVerification(ToggledVerification(u)) == u
    ensures ToggledStatus(u).isAccountDeactivated != u.isAccountDeactivated
    ensures ToggledVerification(u).isMentorVerified != u.isMentorVerified
    ensures ToggledStatus(u).(isAccountDeactivated := u.isAccountDeactivated) == u
    ensures ToggledVerification(u).(isMentorVerified := u.isMentorVerified) == u
  {
  }

  /** `toggleUserStatus`: 404 for an unknown id, else the flag flipped. */
  method ToggleUserStatus(db: UserDb, id: UserId) returns (status: nat)
    requires db.Valid()
    modifies db`docs
    ensures db.Valid()
    ensures id !in old(db.docs) ==> status == 404 && db.docs == old(db.docs)
    ensures id in old(db.docs) ==> status == 200 && db.docs == old(db.docs)[id := ToggledStatus(old(db.docs)[id])]
  {
    if id !in db.docs {
      return 404;
    }
    var user := db.docs[id];
    user := user.(isAccountDeactivated := !user.isAccountDeactivated);
    SameEmailKeepsUnique(db.docs, id, user);
    db.docs := db.docs[id := user];
    status := 200;
  }

  /** `toggleMentorVerification`: 404 for an unknown id, 400 for a user who
      is not a mentor, else the flag flipped. */
  method ToggleMentorVerification(db: UserDb, id: UserId) returns (status: nat)
    requires db.Valid()
    modifies db`docs
    ensures db.Valid()
    ensures id !in old(db.docs) ==> status == 404 && db.docs == old(db.docs)
    ensures id in old(db.docs) && old(db.docs)[id].role != Some(Mentor) ==>
      status == 400 && db.docs == old(db.docs)
    ensures id in old(db.docs) && old(db.docs)[id].role == Some(Mentor) ==>
      status == 200 && db.docs == old(db.docs)[id := ToggledVerification(old(db.docs)[id])]
  {
    if id !in db.docs {
      return 404;
    }
    var mentor := db.docs[id];
    if mentor.role != Some(Mentor) {
      return 400;
    }
    mentor := mentor.(isMentorVerified := !mentor.isMentorVerified);
    SameEmailKeepsUnique(db.docs, id, mentor);
    db.docs := db.docs[id := mentor];
    status := 200;
  }

  /** `deleteUser`: 404 for an unknown id, 403 for an admin, else removed. */
  method DeleteUser(db: UserDb, id: UserId) returns (status: nat)
    requires db.Valid()
    modifies db`docs
    ensures db.Valid()
    ensures id !in old(db.docs) ==> status == 404 && db.docs == old(db.docs)
    ensures id in old(db.docs) && old(db.docs)[id].role == Some(Admin) ==>
      status == 403 && db.docs == old(db.docs)
    ensures id in old(db.docs) && old(db.docs)[id].role != Some(Admin) ==>
      status == 200 && db.docs == old(db.docs) - {id}
  {
    if id !in db.docs {
      return 404;
    }
    if db.docs[id].role == Some(Admin) {
      return 403;
    }
    db.docs := db.docs - {id};
    status := 200;
  }

  // ----- Bulk operations -------------------------------------------------------

  datatype BulkOp = Activate | Deactivate | VerifyMentors | UnverifyMentors | Delete

  /** The `operation` names the `switch` accepts. */
  function ParseOp(operation: string): Option<BulkOp> {
    if operation == "activate" then Some(Activate)
    else if operation == "deactivate" then Some(Deactivate)
    else if operation == "verify_mentors" then Some(VerifyMentors)
    else if operation == "unverify_mentors" then Some(UnverifyMentors)
    else if operation == "delete" then Some(Delete)
    else None
  }

  /** The documents an operation's filter matches among the listed ids:
      anyone but an admin, or mentors only for the verification pair. */
  predicate Targeted(op: BulkOp, u: UserDoc) {
    if op.VerifyMentors? || op.UnverifyMentors? then u.role == Some(Mentor)
    else u.role != Some(Admin)
  }

  /** The `$set` of an update operation. */
  function BulkSet(op: BulkOp, u: UserDoc): UserDoc {
    match op
    case Activate => u.(isAccountDeactivated := false)
    case Deactivate => u.(isAccountDeactivated := true)
    case VerifyMentors => u.(isMentorVerified := true)
    case UnverifyMentors => u.(isMentorVerified := false)
    case Delete => u
  }

  /** The collection after `updateMany` or `deleteMany`. */
  function Bulked(docs: map<UserId, UserDoc>, op: BulkOp, ids: seq<UserId>): map<UserId, UserDoc> {
    if op.Delete? then
      map id | id in docs && !(id in ids && Targeted(op, docs[id])) :: docs[id]
    else
      map id | id in docs :: if id in ids && Targeted(op, docs[id]) then BulkSet(op, docs[id]) else docs[id]
  }

  /** `bulkUserOperations`: `userIds` is `None` when it is not an array.
      400 for a missing or empty list or an unknown operation, else 200. */
  method BulkUserOperations(db: UserDb, operation: string, userIds: Option<seq<UserId>>)
    returns (status: nat)
    requires db.Valid()
    modifies db`docs
    ensures db.Valid()
    ensures userIds.None? || userIds.value == [] || ParseOp(operation).None? ==>
      status == 400 && db.docs == old(db.docs)
    ensures userIds.Some? && userIds.value != [] && ParseOp(operation).Some? ==>
      status == 200 && db.docs == Bulked(old(db.docs), ParseOp(operation).value, userIds.value)
  {
    if userIds.None? || |userIds.value| == 0 {
      return 400;
    }
    var op := ParseOp(operation);
    if op.None? {
      return 400;
    }
    BulkedKeepsEmails(db.docs, op.value, userIds.value);
    db.docs := Bulked(db.docs, op.value, userIds.value);
    status := 200;
  }

  lemma BulkedKeepsEmails(docs: map<UserId, UserDoc>, op: BulkOp, ids: seq<UserId>)
    requires UniqueEmails(docs)
    ensures UniqueEmails(Bulked(docs, op, ids))
  {
    var after := Bulked(docs, op, ids);
    assert forall id :: id in after ==> id in docs && after[id].email == docs[id].email;
  }

  /** Activation, deactivation and deletion never touch an admin. */
  lemma BulkSparesAdmins(docs: map<UserId, UserDoc>, op: BulkOp, ids: seq<UserId>, id: UserId)
    requires op.Activate? || op.Deactivate? || op.Delete?
    requires id in docs && docs[id].role == Some(Admin)
    ensures id in Bulked(docs, op, ids) && Bulked(docs, op, ids)[id] == docs[id]
  {
  }

  /** The verification pair changes mentors only. */
  lemma BulkVerifiesOnlyMentors(docs: map<UserId, UserDoc>, op: BulkOp, ids: seq<UserId>, id: UserId)
    requires op.VerifyMentors? || op.UnverifyMentors?
    requires id in docs && docs[id].role != Some(Mentor)
    ensures id in Bulked(docs, op, ids) && Bulked(docs, op, ids)[id] == docs[id]
  {
  }

  /** A user not in the list is untouched, and a listed user the filter
      matches gets the operation's effect. */
  lemma BulkEffect(docs: map<UserId, UserDoc>, op: BulkOp, ids: seq<UserId>, id: UserId)
    requires id in docs
    ensures id !in ids ==> id in Bulked(docs, op, ids) && Bulked(docs, op, ids)[id] == docs[id]
    ensures id in ids && Targeted(op, docs[id]) ==>
      match op
      case Delete => id !in Bulked(docs, op, ids)
      case Activate => !Bulked(docs, op, ids)[id].isAccountDeactivated
      case Deactivate => Bulked(docs, op, ids)[id].isAccountDeactivated
      case VerifyMentors => Bulked(docs, op, ids)[id].isMentorVerified
      case UnverifyMentors => !Bulked(docs, op, ids)[id].isMentorVerified
  {
  }

  // ----- CSV export ------------------------------------------------------------

  /** A user as `find(...).lean()` lists it: the id and creation time as
      they print, and the document. */
  datatype Listed = Listed(id: string, createdAt: string, user: UserDoc)

  /** How `${user.role}` prints. */
  function RoleText(r: Option<Role>): string {
    match r
    case None => "undefined"
    case Some(User) => "user"
    case Some(Mentor) => "mentor"
    case Some(Admin) => "admin"
  }

  /** The `role` and `status` query filters: by default admins are left
      out; a role other than `all` replaces that with an exact match. */
  predicate Selected(l: Listed, role: Option<string>, status: Option<string>) {
    (if role.Some? && role.value != "" && role.value != "all"
     then l.user.role.Some? && RoleText(l.user.role) == role.value
     else l.user.role != Some(Admin))
    && (status == Some("active") ==> !l.user.isAccountDeactivated)
    && (status == Some("deactivated") ==> l.user.isAccountDeactivated)
  }

  /** The users the export query returns, in listing order. */
  function Exported(users: seq<Listed>, role: Option<string>, status: Option<string>): (r: seq<Listed>)
    ensures |r| <= |users|
  {
    if users == [] then []
    else if Selected(users[0], role, status) then [users[0]] + Exported(users[1..], role, status)
    else Exported(users[1..], role, status)
  }

  const CsvHeader: string := "ID,Name,Email,Role,Status,Verified,Created At\n"

  /** The seven columns of a row. */
  function CsvFields(l: Listed): (r: seq<string>)
    ensures |r| == 7
  {
    [l.id, l.user.name, l.user.email, RoleText(l.user.role),
     if l.user.isAccountDeactivated then "Deactivated" else "Active",
     if l.user.isMentorVerified then "Yes" else "No",
     l.createdAt]
  }

  /** One row: the columns joined by commas, nothing quoted. */
  function CsvRow(l: Listed): string {
    Join(CsvFields(l), ',')
  }

  function CsvRows(users: seq<Listed>): (r: seq<string>)
    ensures |r| == |users|
    ensures forall i :: 0 <= i < |users| ==> r[i] == CsvRow(users[i])
  {
    if users == [] then [] else [CsvRow(users[0])] + CsvRows(users[1..])
  }

  /** The file sent for `format=csv`: the header, then the rows joined by
      newlines (nothing after the header when no user matches). */
  function Csv(users: seq<Listed>): string {
    var rows := CsvRows(users);
    CsvHeader + (if rows == [] then "" else Join(rows, '\n'))
  }

  predicate Plain(field: string) {
    ',' !in field && '\n' !in field
  }

  /** When no value contains a comma or a newline, the body splits back
      into one line per exported user, and each line into its seven
      columns. */
  lemma CsvReadsBack(users: seq<Listed>)
    requires users != []
    requires forall l :: l in users ==> forall f :: f in CsvFields(l) ==> Plain(f)
    ensures var body := Csv(users)[|CsvHeader|..];
      Split(body, '\n') == CsvRows(users)
      && forall i :: 0 <= i < |users| ==> Split(Split(body, '\n')[i], ',') == CsvFields(users[i])
  {
    var rows := CsvRows(users);
    RowsSplit(users);
    RowsPlain(users);
    SplitJoin(rows, '\n');
    CsvBody(users);
  }

  lemma CsvBody(users: seq<Listed>)
    requires users != []
    ensures Csv(users)[|CsvHeader|..] == Join(CsvRows(users), '\n')
  {
  }

  lemma RowsSplit(users: seq<Listed>)
    requires forall l :: l in users ==> forall f :: f in CsvFields(l) ==> Plain(f)
    ensures forall i :: 0 <= i < |users| ==> Split(CsvRows(users)[i], ',') == CsvFields(users[i])
  {
    forall i | 0 <= i < |users|
      ensures Split(CsvRows(users)[i], ',') == CsvFields(users[i])
    {
      assert users[i] in users;
      SplitJoin(CsvFields(users[i]), ',');
    }
  }

  lemma RowsPlain(users: seq<Listed>)
    requires forall l :: l in users ==> forall f :: f in CsvFields(l) ==> Plain(f)
    ensures forall w :: w in CsvRows(users) ==> '\n' !in w
  {
    var rows := CsvRows(users);
    forall w | w in rows
      ensures '\n' !in w
    {
      var i :| 0 <= i < |rows| && rows[i] == w;
      assert users[i] in users;
      NoNewlineInJoin(CsvFields(users[i]), ',');
    }
  }

  lemma {:induction false} NoNewlineInJoin(words: seq<string>, sep: char)
    requires |words| >= 1 && sep != '\n'
    requires forall w :: w in words ==> '\n' !in w
    ensures '\n' !in Join(words, sep)
  {
    if |words| > 1 {
      assert words[0] in words;
      assert forall w :: w in words[1..] ==> w in words;
      NoNewlineInJoin(words[1..], sep);
    }
  }

  /** Nothing is quoted: a comma in a name makes the row split into other
      columns than the user's own. */
  lemma CommaInNameBreaksRow(l: Listed)
    requires ',' in l.user.name
    ensures Split(CsvRow(l), ',') != CsvFields(l)
  {
    assert l.user.name in CsvFields(l);
  }

  /** Without a role filter no admin is exported, and every exported user
      was listed and passes both filters. */
  lemma {:induction false} ExportSelection(users: seq<Listed>, role: Option<string>, status: Option<string>)
    ensures forall l :: l in Exported(users, role, status) <==> l in users && Selected(l, role, status)
    ensures role.None? || role == Some("") || role == Some("all") ==>
      forall l :: l in Exported(users, role, status) ==> l.user.role != Some(Admin)
  {
    if users != [] {
      ExportSelection(users[1..], role, status);
      assert users == [users[0]] + users[1..];
    }
  }
}
