/** The authentication service over the users table: find-or-update-or-
    create for Telegram and Google sign-ins, account linking and lookups.
    The table is an in-memory sequence of rows; each database call either
    succeeds or fails as the `Fault` parameter says. */
module Auth {
  import opened Common
  import opened Types

  /** The Telegram profile a sign-in carries; `id` is the numeric id as
      text. */
  datatype TelegramUser = TelegramUser(
    id: string,
    first_name: string,
    last_name: Option<string>,
    username: Option<string>,
    language_code: Option<string>,
    is_premium: Option<bool>)

  /** The Google profile a sign-in carries. */
  datatype GoogleUser = GoogleUser(
    id: string,
    email: string,
    given_name: Option<string>,
    family_name: Option<string>,
    picture: Option<string>)

  datatype AuthResult = AuthResult(user: Option<User>, error: Option<string>, isNewUser: bool)

  /** How the database calls of one operation go: all succeed, the update
      reports an error, the insert reports an error with its message, the
      delete fails (only `linkAccounts` deletes, and it ignores the
      outcome), or a call throws before anything is written. */
  datatype Fault = NoFault | UpdateFails | InsertFails(message: string) | DeleteFails | Throws

  /** The row filters the service uses. */
  datatype Filter =
    | TelegramIdIs(tid: string)
    | GoogleIdIs(gid: string)
    | GoogleIdOrEmail(gid: string, email: string)
    | IdIs(key: nat)

  predicate Matches(u: User, f: Filter) {
    match f
    case TelegramIdIs(t) => u.telegram_id == Some(t)
    case GoogleIdIs(g) => u.google_id == Some(g)
    case GoogleIdOrEmail(g, e) => u.google_id == Some(g) || u.email == Some(e)
    case IdIs(k) => u.id == k
  }

  /** Row ids are unique and below the next id the table hands out. */
  ghost predicate ValidTable(rows: seq<User>, nextId: nat) {
    (forall i | 0 <= i < |rows| :: rows[i].id < nextId) &&
    (forall i, j | 0 <= i < j < |rows| :: rows[i].id != rows[j].id)
  }

  /** `select("*")` with a filter: the matching rows, in table order. */
  function Select(rows: seq<User>, f: Filter): (r: seq<User>)
    ensures |r| <= |rows|
    ensures forall u | u in r :: u in rows && Matches(u, f)
    ensures forall u | u in rows && Matches(u, f) :: u in r
  {
    if rows == [] then []
    else (if Matches(rows[0], f) then [rows[0]] else []) + Select(rows[1..], f)
  }

  /** `.single()`: the row when exactly one matches, an error otherwise. */
  function Single(rows: seq<User>, f: Filter): (r: Option<User>)
    ensures r.Some? <==> |Select(rows, f)| == 1
    ensures r.Some? ==> r.value in rows && Matches(r.value, f)
  {
    var s := Select(rows, f);
    if |s| == 1 then Some(s[0]) else None
  }

  /** The column updates the service sends. */
  datatype Patch =
    | TelegramProfile(tu: TelegramUser)
    | GoogleProfile(existing: User, gu: GoogleUser)
    | LinkGoogle(google: User, telegram: User)

  /** An `undefined` value is dropped when the update is serialised, so it
      leaves the column as it was; any other value (null included)
      overwrites it. */
  function Assign<T>(column: Option<T>, v: Option<T>): (r: Option<T>)
    ensures v.Some? ==> r == v
    ensures v.None? ==> r == column
  {
    if v.Some? then v else column
  }

  function Apply(u: User, p: Patch): User {
    match p
    case TelegramProfile(tu) =>
      u.(first_name := Some(tu.first_name),
         last_name := Assign(u.last_name, tu.last_name),
         username := Assign(u.username, tu.username),
         language_code := Assign(u.language_code, tu.language_code),
         is_premium := Assign(u.is_premium, tu.is_premium))
    case GoogleProfile(e, gu) =>
      u.(google_id := Some(gu.id),
         email := Some(gu.email),
         first_name := Assign(u.first_name, OrElse(e.first_name, gu.given_name)),
         last_name := Assign(u.last_name, OrElse(e.last_name, gu.family_name)),
         avatar_url := Assign(u.avatar_url, OrElse(e.avatar_url, gu.picture)))
    case LinkGoogle(g, t) =>
      u.(google_id := g.google_id,
         email := g.email,
         avatar_url := OrElse(g.avatar_url, t.avatar_url))
  }

  /** `.update(patch)` with a filter: the matching rows patched in place. */
  function UpdateWhere(rows: seq<User>, f: Filter, p: Patch): (r: seq<User>)
    ensures |r| == |rows|
    ensures forall i | 0 <= i < |rows| :: r[i] == if Matches(rows[i], f) then Apply(rows[i], p) else rows[i]
  {
    if rows == [] then []
    else [if Matches(rows[0], f) then Apply(rows[0], p) else rows[0]] + UpdateWhere(rows[1..], f, p)
  }

  /** `.delete()` with a filter: the rows that do not match, in order. */
  function DeleteWhere(rows: seq<User>, f: Filter): (r: seq<User>)
    ensures |r| <= |rows|
    ensures forall u | u in r :: u in rows && !Matches(u, f)
    ensures forall u | u in rows && !Matches(u, f) :: u in r
  {
    if rows == [] then []
    else (if Matches(rows[0], f) then [] else [rows[0]]) + DeleteWhere(rows[1..], f)
  }

  function PatchAll(s: seq<User>, p: Patch): (r: seq<User>)
    ensures |r| == |s|
    ensures forall i | 0 <= i < |s| :: r[i] == Apply(s[i], p)
  {
    if s == [] then [] else [Apply(s[0], p)] + PatchAll(s[1..], p)
  }

  lemma {:induction false} SelectAppend(a: seq<User>, b: seq<User>, f: Filter)
    ensures Select(a + b, f) == Select(a, f) + Select(b, f)
  {
    if a == [] {
      assert a + b == b;
    } else {
      assert (a + b)[1..] == a[1..] + b;
      SelectAppend(a[1..], b, f);
    }
  }

  /** A profile update leaves the Telegram id alone, so the same rows match
      afterwards, now patched. */
  lemma {:induction false} SelectAfterProfileUpdate(rows: seq<User>, tu: TelegramUser)
    ensures Select(UpdateWhere(rows, TelegramIdIs(tu.id), TelegramProfile(tu)), TelegramIdIs(tu.id))
         == PatchAll(Select(rows, TelegramIdIs(tu.id)), TelegramProfile(tu))
  {
    var f := TelegramIdIs(tu.id);
    var p := TelegramProfile(tu);
    if rows != [] {
      var r := UpdateWhere(rows, f, p);
      assert r == [r[0]] + UpdateWhere(rows[1..], f, p);
      SelectAfterProfileUpdate(rows[1..], tu);
      if Matches(rows[0], f) {
        assert PatchAll([rows[0]] + Select(rows[1..], f), p)
            == [Apply(rows[0], p)] + PatchAll(Select(rows[1..], f), p);
      }
    }
  }

  /** The same for the Google update: it writes the Google id and email, so
      the row it patched is the only one keyed by its id afterwards. */
  lemma {:induction false} SelectAfterIdUpdate(rows: seq<User>, key: nat, p: Patch)
    ensures Select(UpdateWhere(rows, IdIs(key), p), IdIs(key)) == PatchAll(Select(rows, IdIs(key)), p)
  {
    var f := IdIs(key);
    if rows != [] {
      var r := UpdateWhere(rows, f, p);
      assert r == [r[0]] + UpdateWhere(rows[1..], f, p);
      SelectAfterIdUpdate(rows[1..], key, p);
      if Matches(rows[0], f) {
        assert PatchAll([rows[0]] + Select(rows[1..], f), p)
            == [Apply(rows[0], p)] + PatchAll(Select(rows[1..], f), p);
      }
    }
  }

  /** The row `authenticateTelegramUser` inserts. */
  function NewTelegramUser(id: nat, tu: TelegramUser): (u: User)
    ensures u.id == id && u.telegram_id == Some(tu.id) && u.first_name == Some(tu.first_name)
    ensures u.language_code == OrElse(tu.language_code, Some("en"))
    ensures u.is_premium == Some(tu.is_premium == Some(true))
    ensures u.auth_provider == Some(TelegramProvider)
  {
    User(id, None, Some(tu.first_name), tu.last_name, tu.username, None, Some(tu.id), None,
         OrElse(tu.language_code, Some("en")), Some(tu.is_premium == Some(true)), Some(TelegramProvider))
  }

  /** The row `authenticateGoogleUser` inserts. */
  function NewGoogleUser(id: nat, gu: GoogleUser): (u: User)
    ensures u.id == id && u.google_id == Some(gu.id) && u.email == Some(gu.email)
    ensures u.language_code == Some("en") && u.auth_provider == Some(GoogleProvider)
    ensures u.telegram_id.None?
  {
    User(id, Some(gu.email), gu.given_name, gu.family_name, None, gu.picture, None, Some(gu.id),
         Some("en"), None, Some(GoogleProvider))
  }

  /** The table after an operation, and the operation's answer. */
  datatype Outcome<T> = Outcome(rows: seq<User>, nextId: nat, answer: T)

  /** The table after a link, and whether the link was reported done. */
  datatype LinkOutcome = LinkOutcome(rows: seq<User>, linked: bool)

  /** `authenticateTelegramUser` */
  function TelegramLogin(rows: seq<User>, nextId: nat, tu: TelegramUser, fault: Fault): (o: Outcome<AuthResult>)
    ensures fault == Throws ==>
      o == Outcome(rows, nextId, AuthResult(None, Some("Authentication failed"), false))
    ensures fault != Throws && Single(rows, TelegramIdIs(tu.id)).Some? ==>
      var e := Single(rows, TelegramIdIs(tu.id)).value;
      !o.answer.isNewUser && o.answer.error.None? && o.nextId == nextId && |o.rows| == |rows| &&
      (fault == UpdateFails ==> o.rows == rows && o.answer.user == Some(e)) &&
      (fault != UpdateFails ==>
        o.answer.user == Some(Apply(e, TelegramProfile(tu))) &&
        forall i | 0 <= i < |rows| ::
          o.rows[i] == if rows[i].telegram_id == Some(tu.id) then Apply(rows[i], TelegramProfile(tu)) else rows[i])
    ensures fault != Throws && Single(rows, TelegramIdIs(tu.id)).None? ==>
      if fault.InsertFails? then o == Outcome(rows, nextId, AuthResult(None, Some(fault.message), false))
      else o == Outcome(rows + [NewTelegramUser(nextId, tu)], nextId + 1,
                        AuthResult(Some(NewTelegramUser(nextId, tu)), None, true))
  {
    var f := TelegramIdIs(tu.id);
    if fault == Throws then Outcome(rows, nextId, AuthResult(None, Some("Authentication failed"), false))
    else match Single(rows, f)
      case Some(existing) =>
        if fault == UpdateFails then Outcome(rows, nextId, AuthResult(Some(existing), None, false))
        else
          var updated := UpdateWhere(rows, f, TelegramProfile(tu));
          SelectAfterProfileUpdate(rows, tu);
          Outcome(updated, nextId, AuthResult(Single(updated, f), None, false))
      case None =>
        if fault.InsertFails? then Outcome(rows, nextId, AuthResult(None, Some(fault.message), false))
        else
          var u := NewTelegramUser(nextId, tu);
          Outcome(rows + [u], nextId + 1, AuthResult(Some(u), None, true))
  }

  /** A first sign-in makes the next one an update: once the row is
      inserted, exactly that row carries the Telegram id. */
  lemma TelegramLoginThenFound(rows: seq<User>, nextId: nat, tu: TelegramUser, fault: Fault)
    requires Select(rows, TelegramIdIs(tu.id)) == [] && (fault == NoFault || fault == UpdateFails)
    ensures var o := TelegramLogin(rows, nextId, tu, fault);
      o.answer.isNewUser && Single(o.rows, TelegramIdIs(tu.id)) == o.answer.user
  {
    var u := NewTelegramUser(nextId, tu);
    SelectAppend(rows, [u], TelegramIdIs(tu.id));
    assert Select([u], TelegramIdIs(tu.id)) == [u];
  }

  /** A sign-in keeps row ids unique. */
  lemma TelegramLoginValid(rows: seq<User>, nextId: nat, tu: TelegramUser, fault: Fault)
    requires ValidTable(rows, nextId)
    ensures var o := TelegramLogin(rows, nextId, tu, fault); ValidTable(o.rows, o.nextId)
  {
  }

  lemma GoogleLoginValid(rows: seq<User>, nextId: nat, gu: GoogleUser, fault: Fault)
    requires ValidTable(rows, nextId)
    ensures var o := GoogleLogin(rows, nextId, gu, fault); ValidTable(o.rows, o.nextId)
  {
  }

  /** `authenticateGoogleUser`: the lookup matches the Google id or the
      email; existing names and avatar win over Google's, the Google id and
      email are overwritten. */
  function GoogleLogin(rows: seq<User>, nextId: nat, gu: GoogleUser, fault: Fault): (o: Outcome<AuthResult>)
    ensures fault == Throws ==>
      o == Outcome(rows, nextId, AuthResult(None, Some("Authentication failed"), false))
    ensures fault != Throws && Single(rows, GoogleIdOrEmail(gu.id, gu.email)).Some? ==>
      var e := Single(rows, GoogleIdOrEmail(gu.id, gu.email)).value;
      !o.answer.isNewUser && o.answer.error.None? && o.nextId == nextId && |o.rows| == |rows| &&
      (fault == UpdateFails ==> o.rows == rows && o.answer.user == Some(e)) &&
      (fault != UpdateFails ==>
        forall i | 0 <= i < |rows| ::
          o.rows[i] == if rows[i].id == e.id then Apply(rows[i], GoogleProfile(e, gu)) else rows[i])
    ensures fault != Throws && Single(rows, GoogleIdOrEmail(gu.id, gu.email)).None? ==>
      if fault.InsertFails? then o == Outcome(rows, nextId, AuthResult(None, Some(fault.message), false))
      else o == Outcome(rows + [NewGoogleUser(nextId, gu)], nextId + 1,
                        AuthResult(Some(NewGoogleUser(nextId, gu)), None, true))
  {
    if fault == Throws then Outcome(rows, nextId, AuthResult(None, Some("Authentication failed"), false))
    else match Single(rows, GoogleIdOrEmail(gu.id, gu.email))
      case Some(existing) =>
        if fault == UpdateFails then Outcome(rows, nextId, AuthResult(Some(existing), None, false))
        else
          var updated := UpdateWhere(rows, IdIs(existing.id), GoogleProfile(existing, gu));
          Outcome(updated, nextId, AuthResult(Single(updated, IdIs(existing.id)), None, false))
      case None =>
        if fault.InsertFails? then Outcome(rows, nextId, AuthResult(None, Some(fault.message), false))
        else
          var u := NewGoogleUser(nextId, gu);
          Outcome(rows + [u], nextId + 1, AuthResult(Some(u), None, true))
  }

  /** On a valid table the Google update returns the patched row, whose
      names and avatar are the existing ones when those were truthy. */
  lemma GoogleLoginUpdated(rows: seq<User>, nextId: nat, gu: GoogleUser)
    requires ValidTable(rows, nextId)
    requires Single(rows, GoogleIdOrEmail(gu.id, gu.email)).Some?
    ensures var e := Single(rows, GoogleIdOrEmail(gu.id, gu.email)).value;
      var u := GoogleLogin(rows, nextId, gu, NoFault).answer.user;
      u.Some? && u.value.id == e.id && u.value.google_id == Some(gu.id) && u.value.email == Some(gu.email) &&
      (TruthyText(e.first_name) ==> u.value.first_name == e.first_name) &&
      (TruthyText(e.last_name) ==> u.value.last_name == e.last_name) &&
      (TruthyText(e.avatar_url) ==> u.value.avatar_url == e.avatar_url) &&
      (!TruthyText(e.first_name) && gu.given_name.Some? ==> u.value.first_name == gu.given_name) &&
      (!TruthyText(e.last_name) && gu.family_name.Some? ==> u.value.last_name == gu.family_name) &&
      (!TruthyText(e.avatar_url) && gu.picture.Some? ==> u.value.avatar_url == gu.picture)
  {
    var e := Single(rows, GoogleIdOrEmail(gu.id, gu.email)).value;
    var i :| 0 <= i < |rows| && rows[i] == e;
    var p := GoogleProfile(e, gu);
    assert GoogleLogin(rows, nextId, gu, NoFault).answer.user == Single(UpdateWhere(rows, IdIs(e.id), p), IdIs(e.id));
    UpdatedSingle(rows, nextId, i, p);
  }

  /** On a valid table, an update by a row's id is read back by `.single()`
      as that row patched. */
  lemma UpdatedSingle(rows: seq<User>, nextId: nat, i: nat, p: Patch)
    requires ValidTable(rows, nextId) && i < |rows|
    ensures Single(UpdateWhere(rows, IdIs(rows[i].id), p), IdIs(rows[i].id)) == Some(Apply(rows[i], p))
  {
    SelectSingleId(rows, nextId, i);
    SelectAfterIdUpdate(rows, rows[i].id, p);
    assert PatchAll([rows[i]], p) == [Apply(rows[i], p)];
  }

  /** On a valid table the id filter selects exactly the row with that id. */
  lemma {:induction false} SelectSingleId(rows: seq<User>, nextId: nat, i: nat)
    requires ValidTable(rows, nextId) && i < |rows|
    ensures Select(rows, IdIs(rows[i].id)) == [rows[i]]
  {
    var f := IdIs(rows[i].id);
    if i == 0 {
      forall k | 0 <= k < |rows[1..]| ensures !Matches(rows[1..][k], f) {
        assert rows[1..][k] == rows[k + 1];
      }
      NoneSelected(rows[1..], f);
    } else {
      assert ValidTable(rows[1..], nextId) by {
        forall a, b | 0 <= a < b < |rows[1..]| ensures rows[1..][a].id != rows[1..][b].id {
          assert rows[1..][a] == rows[a + 1] && rows[1..][b] == rows[b + 1];
        }
      }
      assert rows[0].id != rows[i].id;
      SelectSingleId(rows[1..], nextId, i - 1);
      assert rows[1..][i - 1] == rows[i];
    }
  }

  lemma NoneSelected(rows: seq<User>, f: Filter)
    requires forall k | 0 <= k < |rows| :: !Matches(rows[k], f)
    ensures Select(rows, f) == []
  {
  }

  /** A lookup that matches no row, or several (a Google id on one row and
      the email on another), inserts a fresh Google user. */
  lemma GoogleLoginAmbiguous(rows: seq<User>, nextId: nat, gu: GoogleUser)
    requires |Select(rows, GoogleIdOrEmail(gu.id, gu.email))| != 1
    ensures var o := GoogleLogin(rows, nextId, gu, NoFault);
      o.answer.isNewUser && o.rows == rows + [NewGoogleUser(nextId, gu)]
  {
  }

  /** `linkAccounts` as written: both users must be found; the Telegram row
      gains the Google id, email and avatar (Google's preferred); then the
      row that held the Google id is deleted by its id. */
  function Link(rows: seq<User>, telegramId: string, googleId: string, fault: Fault): (o: LinkOutcome)
    ensures !o.linked ==> o.rows == rows
    ensures o.linked <==>
      fault != Throws && fault != UpdateFails &&
      Single(rows, TelegramIdIs(telegramId)).Some? && Single(rows, GoogleIdIs(googleId)).Some?
    ensures o.linked ==>
      var t := Single(rows, TelegramIdIs(telegramId)).value;
      var g := Single(rows, GoogleIdIs(googleId)).value;
      var m := t.(google_id := g.google_id, email := g.email, avatar_url := OrElse(g.avatar_url, t.avatar_url));
      |o.rows| <= |rows| &&
      (forall u | u in o.rows :: u in rows || u == m) &&
      (forall u | u in rows && u.id != g.id && !Matches(u, TelegramIdIs(telegramId)) :: u in o.rows) &&
      (fault != DeleteFails ==> (forall u | u in o.rows :: u.id != g.id) && (g.id != t.id ==> m in o.rows)) &&
      (fault == DeleteFails ==> |o.rows| == |rows| && m in o.rows && (g.id != t.id ==> g in o.rows))
  {
    if fault == Throws then LinkOutcome(rows, false)
    else match Single(rows, TelegramIdIs(telegramId))
      case None => LinkOutcome(rows, false)
      case Some(t) =>
        match Single(rows, GoogleIdIs(googleId))
        case None => LinkOutcome(rows, false)
        case Some(g) =>
          if fault == UpdateFails then LinkOutcome(rows, false)
          else
            var merged := UpdateWhere(rows, TelegramIdIs(telegramId), LinkGoogle(g, t));
            if fault == DeleteFails then
              LinkRowsKept(rows, telegramId, googleId, t, g);
              LinkOutcome(merged, true)
            else
              LinkRowsDeleted(rows, telegramId, googleId, t, g);
              LinkOutcome(DeleteWhere(merged, IdIs(g.id)), true)
  }

  /** What the merge followed by the delete of the Google row leaves in
      the table. */
  lemma LinkRowsDeleted(rows: seq<User>, telegramId: string, googleId: string, t: User, g: User)
    requires Single(rows, TelegramIdIs(telegramId)) == Some(t)
    requires Single(rows, GoogleIdIs(googleId)) == Some(g)
    ensures var out := DeleteWhere(UpdateWhere(rows, TelegramIdIs(telegramId), LinkGoogle(g, t)), IdIs(g.id));
      var m := t.(google_id := g.google_id, email := g.email, avatar_url := OrElse(g.avatar_url, t.avatar_url));
      |out| <= |rows| &&
      (forall u | u in out :: u in rows || u == m) &&
      (forall u | u in rows && u.id != g.id && !Matches(u, TelegramIdIs(telegramId)) :: u in out) &&
      (forall u | u in out :: u.id != g.id) &&
      (g.id != t.id ==> m in out)
  {
    var f := TelegramIdIs(telegramId);
    var p := LinkGoogle(g, t);
    var merged := UpdateWhere(rows, f, p);
    var out := DeleteWhere(merged, IdIs(g.id));
    assert Apply(t, p) == t.(google_id := g.google_id, email := g.email, avatar_url := OrElse(g.avatar_url, t.avatar_url));
    MergeKept(rows, f, t, p);
    assert forall u | u in out :: u in merged && !Matches(u, IdIs(g.id));
    forall u | u in rows && u.id != g.id && !Matches(u, f) ensures u in out {
      assert u in merged && !Matches(u, IdIs(g.id));
    }
    if g.id != t.id {
      assert Apply(t, p).id == t.id;
      assert !Matches(Apply(t, p), IdIs(g.id));
    }
  }

  /** The delete's outcome is not checked: when it fails, `linkAccounts`
      still reports success, and two rows now carry the Google id, so a
      later lookup by that id finds no single user. */
  lemma LinkDeleteFailsDuplicates(rows: seq<User>, telegramId: string, googleId: string)
    requires Single(rows, TelegramIdIs(telegramId)).Some? && Single(rows, GoogleIdIs(googleId)).Some?
    requires Single(rows, TelegramIdIs(telegramId)) != Single(rows, GoogleIdIs(googleId))
    requires forall i, j | 0 <= i < j < |rows| :: rows[i].id != rows[j].id
    ensures var o := Link(rows, telegramId, googleId, DeleteFails);
      o.linked && Single(o.rows, GoogleIdIs(googleId)).None?
  {
    var t := Single(rows, TelegramIdIs(telegramId)).value;
    var g := Single(rows, GoogleIdIs(googleId)).value;
    var m := Apply(t, LinkGoogle(g, t));
    var o := Link(rows, telegramId, googleId, DeleteFails);
    assert t.id != g.id by {
      var i :| 0 <= i < |rows| && rows[i] == t;
      var j :| 0 <= j < |rows| && rows[j] == g;
      assert i != j;
    }
    LinkRowsKept(rows, telegramId, googleId, t, g);
    assert o.rows == UpdateWhere(rows, TelegramIdIs(telegramId), LinkGoogle(g, t));
    assert m in o.rows && g in o.rows && m.id != g.id;
    TwoMatchesNoSingle(o.rows, GoogleIdIs(googleId), m, g);
  }

  /** Two different matching rows make `.single()` fail. */
  lemma TwoMatchesNoSingle(rows: seq<User>, f: Filter, a: User, b: User)
    requires a in rows && b in rows && a != b && Matches(a, f) && Matches(b, f)
    ensures Single(rows, f).None?
  {
    if Single(rows, f).Some? {
      var i :| 0 <= i < |rows| && rows[i] == a;
      var j :| 0 <= j < |rows| && rows[j] == b;
      SingleMatchIsRow(rows, f, i);
      SingleMatchIsRow(rows, f, j);
    }
  }

  /** What the merge alone leaves in the table, when the delete fails. */
  lemma LinkRowsKept(rows: seq<User>, telegramId: string, googleId: string, t: User, g: User)
    requires Single(rows, TelegramIdIs(telegramId)) == Some(t)
    requires Single(rows, GoogleIdIs(googleId)) == Some(g)
    ensures var out := UpdateWhere(rows, TelegramIdIs(telegramId), LinkGoogle(g, t));
      var m := t.(google_id := g.google_id, email := g.email, avatar_url := OrElse(g.avatar_url, t.avatar_url));
      |out| == |rows| &&
      (forall u | u in out :: u in rows || u == m) &&
      (forall u | u in rows && !Matches(u, TelegramIdIs(telegramId)) :: u in out) &&
      m in out &&
      (g.id != t.id ==> g in out)
  {
    assert Apply(t, LinkGoogle(g, t))
        == t.(google_id := g.google_id, email := g.email, avatar_url := OrElse(g.avatar_url, t.avatar_url));
    MergeKept(rows, TelegramIdIs(telegramId), t, LinkGoogle(g, t));
    GoogleRowUntouched(rows, telegramId, googleId, t, g);
  }

  /** A Google row other than the Telegram row is not matched by the
      Telegram id, so the merge leaves it as it was. */
  lemma GoogleRowUntouched(rows: seq<User>, telegramId: string, googleId: string, t: User, g: User)
    requires Single(rows, TelegramIdIs(telegramId)) == Some(t)
    requires Single(rows, GoogleIdIs(googleId)) == Some(g)
    ensures g.id != t.id ==> g in UpdateWhere(rows, TelegramIdIs(telegramId), LinkGoogle(g, t))
  {
    var j :| 0 <= j < |Select(rows, GoogleIdIs(googleId))| && Select(rows, GoogleIdIs(googleId))[j] == g;
    assert g in rows;
    if g.id != t.id && Matches(g, TelegramIdIs(telegramId)) {
      var i :| 0 <= i < |rows| && rows[i] == g;
      SingleMatchIsRow(rows, TelegramIdIs(telegramId), i);
    }
    MergeKept(rows, TelegramIdIs(telegramId), t, LinkGoogle(g, t));
  }

  /** The merge keeps the patched row and every row the filter did not touch. */
  lemma MergeKept(rows: seq<User>, f: Filter, t: User, p: Patch)
    requires Single(rows, f) == Some(t)
    ensures Apply(t, p) in UpdateWhere(rows, f, p)
    ensures forall u | u in rows && !Matches(u, f) :: u in UpdateWhere(rows, f, p)
    ensures forall u | u in UpdateWhere(rows, f, p) :: u in rows || u == Apply(t, p)
  {
    var merged := UpdateWhere(rows, f, p);
    var i :| 0 <= i < |rows| && rows[i] == t;
    assert merged[i] == Apply(t, p);
    forall u | u in rows && !Matches(u, f) ensures u in merged {
      var j :| 0 <= j < |rows| && rows[j] == u;
      assert merged[j] == u;
    }
    forall u | u in merged ensures u in rows || u == Apply(t, p) {
      var j :| 0 <= j < |merged| && merged[j] == u;
      if Matches(rows[j], f) {
        SingleMatchIsRow(rows, f, j);
      }
    }
  }

  /** After the merge and a delete by another row's id, the merged row and
      every row the filter did not touch and the delete did not name are
      still there. */
  lemma LinkMergeSurvives(rows: seq<User>, f: Filter, t: User, p: Patch, gone: nat)
    requires Single(rows, f) == Some(t)
    ensures var out := DeleteWhere(UpdateWhere(rows, f, p), IdIs(gone));
      (Apply(t, p).id != gone ==> Apply(t, p) in out) &&
      (forall u | u in rows && u.id != gone && !Matches(u, f) :: u in out) &&
      (forall u | u in out :: u in rows || u == Apply(t, p))
  {
    MergeKept(rows, f, t, p);
  }

  /** When the Telegram id and the Google id are on the same row, linking
      reports success and deletes that row: no row keeps the Telegram id. */
  lemma LinkSameRowDeletes(rows: seq<User>, telegramId: string, googleId: string)
    requires Single(rows, TelegramIdIs(telegramId)).Some?
    requires Single(rows, GoogleIdIs(googleId)) == Single(rows, TelegramIdIs(telegramId))
    ensures var o := Link(rows, telegramId, googleId, NoFault);
      o.linked && forall u | u in o.rows :: u.telegram_id != Some(telegramId)
  {
    var f := TelegramIdIs(telegramId);
    var t := Single(rows, f).value;
    var merged := UpdateWhere(rows, f, LinkGoogle(t, t));
    var out := DeleteWhere(merged, IdIs(t.id));
    assert Link(rows, telegramId, googleId, NoFault) == LinkOutcome(out, true);
    MergedRowDeleted(rows, f, t, merged, out);
  }

  lemma MergedRowDeleted(rows: seq<User>, f: Filter, t: User, merged: seq<User>, out: seq<User>)
    requires f.TelegramIdIs? && Single(rows, f) == Some(t)
    requires merged == UpdateWhere(rows, f, LinkGoogle(t, t)) && out == DeleteWhere(merged, IdIs(t.id))
    ensures forall u | u in out :: !Matches(u, f)
  {
    forall j | 0 <= j < |rows| && Matches(rows[j], f) ensures merged[j].id == t.id {
      SingleMatchIsRow(rows, f, j);
    }
    forall u | u in out ensures !Matches(u, f) {
      var j :| 0 <= j < |merged| && merged[j] == u;
    }
  }

  /** Under `.single()` success, any matching row is the one returned. */
  lemma SingleMatchIsRow(rows: seq<User>, f: Filter, j: nat)
    requires Single(rows, f).Some? && j < |rows| && Matches(rows[j], f)
    ensures rows[j] == Single(rows, f).value
  {
    var s := Select(rows, f);
    assert rows[j] in s;
    assert s == [s[0]];
  }

  /** A concrete case: one row with both ids; after linking the table is
      empty. */
  lemma LinkSameRowExample()
    ensures var row := User(1, None, Some("Ann"), None, None, None, Some("7"), Some("g"), Some("en"), None, None);
      Link([row], "7", "g", NoFault) == LinkOutcome([], true)
  {
    var row := User(1, None, Some("Ann"), None, None, None, Some("7"), Some("g"), Some("en"), None, None);
    assert Select([row], TelegramIdIs("7")) == [row];
    assert Select([row], GoogleIdIs("g")) == [row];
    var merged := UpdateWhere([row], TelegramIdIs("7"), LinkGoogle(row, row));
    assert DeleteWhere(merged, IdIs(1)) == [];
  }

  /** `linkAccounts` as intended: when both ids are already on one row the
      merge is all there is to do, and no row is deleted. */
  function LinkFixed(rows: seq<User>, telegramId: string, googleId: string, fault: Fault): (o: LinkOutcome)
    ensures !o.linked ==> o.rows == rows
    ensures o.linked <==>
      fault != Throws && fault != UpdateFails &&
      Single(rows, TelegramIdIs(telegramId)).Some? && Single(rows, GoogleIdIs(googleId)).Some?
    ensures o.linked ==>
      var t := Single(rows, TelegramIdIs(telegramId)).value;
      var g := Single(rows, GoogleIdIs(googleId)).value;
      var m := t.(google_id := g.google_id, email := g.email, avatar_url := OrElse(g.avatar_url, t.avatar_url));
      |o.rows| <= |rows| &&
      m in o.rows &&
      (forall u | u in o.rows :: u in rows || u == m) &&
      (forall u | u in rows && u.id != g.id && !Matches(u, TelegramIdIs(telegramId)) :: u in o.rows) &&
      (fault != DeleteFails && g.id != t.id ==> forall u | u in o.rows :: u.id != g.id) &&
      (fault == DeleteFails ==> |o.rows| == |rows| && (g.id != t.id ==> g in o.rows))
  {
    if fault == Throws then LinkOutcome(rows, false)
    else match Single(rows, TelegramIdIs(telegramId))
      case None => LinkOutcome(rows, false)
      case Some(t) =>
        match Single(rows, GoogleIdIs(googleId))
        case None => LinkOutcome(rows, false)
        case Some(g) =>
          if fault == UpdateFails then LinkOutcome(rows, false)
          else
            var merged := UpdateWhere(rows, TelegramIdIs(telegramId), LinkGoogle(g, t));
            if g.id == t.id || fault == DeleteFails then
              LinkRowsKept(rows, telegramId, googleId, t, g);
              LinkOutcome(merged, true)
            else
              LinkRowsDeleted(rows, telegramId, googleId, t, g);
              LinkOutcome(DeleteWhere(merged, IdIs(g.id)), true)
  }

  /** After a successful corrected link the Telegram user still exists and
      carries the Google id. */
  lemma LinkFixedKeepsTelegramRow(rows: seq<User>, telegramId: string, googleId: string)
    requires LinkFixed(rows, telegramId, googleId, NoFault).linked
    ensures exists u | u in LinkFixed(rows, telegramId, googleId, NoFault).rows ::
      u.telegram_id == Some(telegramId) && u.google_id == Some(googleId)
  {
    var t := Single(rows, TelegramIdIs(telegramId)).value;
    var g := Single(rows, GoogleIdIs(googleId)).value;
    var m := t.(google_id := g.google_id, email := g.email, avatar_url := OrElse(g.avatar_url, t.avatar_url));
    assert m in LinkFixed(rows, telegramId, googleId, NoFault).rows;
    assert m.telegram_id == Some(telegramId) && m.google_id == Some(googleId);
  }

  /** The service's users table, changed call by call. */
  class UserTable {
    var rows: seq<User>
    var nextId: nat

    constructor ()
      ensures rows == [] && nextId == 0
    {
      rows := [];
      nextId := 0;
    }

    /** Appends a row under the next free id. */
    method Insert(u: User) returns (inserted: User)
      modifies this
      ensures inserted == u.(id := old(nextId))
      ensures rows == old(rows) + [inserted] && nextId == old(nextId) + 1
    {
      inserted := u.(id := nextId);
      rows := rows + [inserted];
      nextId := nextId + 1;
    }

    method AuthenticateTelegramUser(tu: TelegramUser, fault: Fault) returns (result: AuthResult)
      modifies this
      ensures Outcome(rows, nextId, result) == TelegramLogin(old(rows), old(nextId), tu, fault)
    {
      if fault == Throws {
        return AuthResult(None, Some("Authentication failed"), false);
      }
      var existing := Single(rows, TelegramIdIs(tu.id));
      if existing.Some? {
        if fault == UpdateFails {
          return AuthResult(existing, None, false);
        }
        rows := UpdateWhere(rows, TelegramIdIs(tu.id), TelegramProfile(tu));
        return AuthResult(Single(rows, TelegramIdIs(tu.id)), None, false);
      }
      if fault.InsertFails? {
        return AuthResult(None, Some(fault.message), false);
      }
      var created := Insert(NewTelegramUser(0, tu));
      return AuthResult(Some(created), None, true);
    }

    method AuthenticateGoogleUser(gu: GoogleUser, fault: Fault) returns (result: AuthResult)
      modifies this
      ensures Outcome(rows, nextId, result) == GoogleLogin(old(rows), old(nextId), gu, fault)
    {
      if fault == Throws {
        return AuthResult(None, Some("Authentication failed"), false);
      }
      var existing := Single(rows, GoogleIdOrEmail(gu.id, gu.email));
      if existing.Some? {
        if fault == UpdateFails {
          return AuthResult(existing, None, false);
        }
        var e := existing.value;
        rows := UpdateWhere(rows, IdIs(e.id), GoogleProfile(e, gu));
        return AuthResult(Single(rows, IdIs(e.id)), None, false);
      }
      if fault.InsertFails? {
        return AuthResult(None, Some(fault.message), false);
      }
      var created := Insert(NewGoogleUser(0, gu));
      return AuthResult(Some(created), None, true);
    }

    /** `linkAccounts` as written (see `Link`). */
    method LinkAccounts(telegramId: string, googleId: string, fault: Fault) returns (linked: bool)
      modifies this
      ensures LinkOutcome(rows, linked) == Link(old(rows), telegramId, googleId, fault)
      ensures nextId == old(nextId)
    {
      if fault == Throws {
        return false;
      }
      var telegramUser := Single(rows, TelegramIdIs(telegramId));
      if telegramUser.None? {
        return false;
      }
      var googleUser := Single(rows, GoogleIdIs(googleId));
      if googleUser.None? {
        return false;
      }
      if fault == UpdateFails {
        return false;
      }
      rows := UpdateWhere(rows, TelegramIdIs(telegramId), LinkGoogle(googleUser.value, telegramUser.value));
      if fault != DeleteFails {
        rows := DeleteWhere(rows, IdIs(googleUser.value.id));
      }
      return true;
    }

    /** `getUserByTelegramId` */
    function GetUserByTelegramId(telegramId: string): (r: Option<User>)
      reads this
      ensures r.Some? ==> r.value in rows && r.value.telegram_id == Some(telegramId)
      ensures r.None? <==> |Select(rows, TelegramIdIs(telegramId))| != 1
    {
      Single(rows, TelegramIdIs(telegramId))
    }

    /** `getUserByGoogleId` */
    function GetUserByGoogleId(googleId: string): (r: Option<User>)
      reads this
      ensures r.Some? ==> r.value in rows && r.value.google_id == Some(googleId)
      ensures r.None? <==> |Select(rows, GoogleIdIs(googleId))| != 1
    {
      Single(rows, GoogleIdIs(googleId))
    }
  }
}
