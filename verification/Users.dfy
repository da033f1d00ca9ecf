/** The user store and its username index (controlplane/user/server/handlers.go,
    controlplane/user/server/serializer.go, controlplane/user/server/deserializer.go). */
module Users {
  import opened Changes
  import opened Finite

  const ADMIN := "admin"
  const NIL_UUID := "00000000-0000-0000-0000-000000000000"
  const ADMIN_ROLE := "admin"
  const DEFAULT_ADMIN_KEY := "niova-admin-secret-key"

  datatype User = User(id: string, username: string, secretKey: string, role: string, status: nat, isAdmin: bool)

  datatype UserReq = UserReq(username: string, userId: string, newSecretKey: string, isUpdate: bool, isAdmin: bool)

  datatype Field = SecretKey | Username | Status | UserType | UserRole

  datatype Key =
    | UserField(id: string, field: Field)   // u/<id>/{sk,un,st,ut,ur}
    | NameIdx(name: string)                 // u-idx/un/<name>

  datatype Val = Text(s: string) | Byte(b: nat)

  type KV = map<Key, Val>

  function TextOf(v: Val): string { if v.Text? then v.s else "" }

  // ----- serializing -----

  function UserChanges(u: User): seq<Change<Key, Val>> {
    When(u.username != "", UserField(u.id, Username), Text(u.username))
    + When(u.secretKey != "", UserField(u.id, SecretKey), Text(u.secretKey))
    + [Put(UserField(u.id, UserType), Text(if u.isAdmin then "admin" else "non-admin"))]
    + When(u.role != "", UserField(u.id, UserRole), Text(u.role))
    + [Put(UserField(u.id, Status), Byte(u.status))]
    + When(u.username != "", NameIdx(u.username), Text(u.id))
  }

  /** UserSerializer.Serialize: empty texts are not written. */
  method Serialize(u: User) returns (chgs: seq<Change<Key, Val>>)
    ensures chgs == UserChanges(u)
  {
    chgs := [];
    if u.username != "" {
      chgs := chgs + [Put(UserField(u.id, Username), Text(u.username))];
    }
    if u.secretKey != "" {
      chgs := chgs + [Put(UserField(u.id, SecretKey), Text(u.secretKey))];
    }
    var userType := "non-admin";
    if u.isAdmin {
      userType := "admin";
    }
    chgs := chgs + [Put(UserField(u.id, UserType), Text(userType))];
    if u.role != "" {
      chgs := chgs + [Put(UserField(u.id, UserRole), Text(u.role))];
    }
    chgs := chgs + [Put(UserField(u.id, Status), Byte(u.status))];
    if u.username != "" {
      chgs := chgs + [Put(NameIdx(u.username), Text(u.id))];
    }
  }

  function PutWhen(s: KV, c: bool, k: Key, v: Val): KV { if c then s[k := v] else s }

  lemma {:induction false} ApplyWhen(s: KV, c: bool, k: Key, v: Val)
    ensures ApplyAll(s, When(c, k, v)) == PutWhen(s, c, k, v)
  {
    if c { ApplySingle(s, Put(k, v)); }
  }

  /** The store after writing user u. */
  function WithUser(s: KV, u: User): KV {
    var s1 := PutWhen(s, u.username != "", UserField(u.id, Username), Text(u.username));
    var s2 := PutWhen(s1, u.secretKey != "", UserField(u.id, SecretKey), Text(u.secretKey));
    var s3: KV := s2[UserField(u.id, UserType) := Text(if u.isAdmin then "admin" else "non-admin")];
    var s4 := PutWhen(s3, u.role != "", UserField(u.id, UserRole), Text(u.role));
    var s5: KV := s4[UserField(u.id, Status) := Byte(u.status)];
    PutWhen(s5, u.username != "", NameIdx(u.username), Text(u.id))
  }

  lemma {:induction false} UserChangesApply(s: KV, u: User)
    ensures ApplyAll(s, UserChanges(u)) == WithUser(s, u)
  {
    hide ApplyAll, When, PutWhen;
    var a := When(u.username != "", UserField(u.id, Username), Text(u.username));
    var b := When(u.secretKey != "", UserField(u.id, SecretKey), Text(u.secretKey));
    var c := [Put(UserField(u.id, UserType), Text(if u.isAdmin then "admin" else "non-admin"))];
    var d := When(u.role != "", UserField(u.id, UserRole), Text(u.role));
    var e := [Put(UserField(u.id, Status), Byte(u.status))];
    var f := When(u.username != "", NameIdx(u.username), Text(u.id));
    ApplyAllAppend(s, a + b + c + d + e, f);
    ApplyAllAppend(s, a + b + c + d, e);
    ApplyAllAppend(s, a + b + c, d);
    ApplyAllAppend(s, a + b, c);
    ApplyAllAppend(s, a, b);
    ApplyWhen(s, u.username != "", UserField(u.id, Username), Text(u.username));
    ApplyWhen(ApplyAll(s, a), u.secretKey != "", UserField(u.id, SecretKey), Text(u.secretKey));
    ApplySingle(ApplyAll(ApplyAll(s, a), b), Put(UserField(u.id, UserType), Text(if u.isAdmin then "admin" else "non-admin")));
    ApplyWhen(ApplyAll(ApplyAll(ApplyAll(s, a), b), c), u.role != "", UserField(u.id, UserRole), Text(u.role));
    ApplySingle(ApplyAll(ApplyAll(ApplyAll(ApplyAll(s, a), b), c), d), Put(UserField(u.id, Status), Byte(u.status)));
    ApplyWhen(ApplyAll(ApplyAll(ApplyAll(ApplyAll(ApplyAll(s, a), b), c), d), e), u.username != "", NameIdx(u.username), Text(u.id));
  }

  // ----- deserializing -----

  function TextAt(s: KV, k: Key): string { if k in s then TextOf(s[k]) else "" }

  function StatusAt(s: KV, id: string): nat {
    var k := UserField(id, Status);
    if k in s && s[k].Byte? then s[k].b else 0
  }

  /** The user that the rows of an id describe. */
  function Decode(s: KV, id: string): User {
    User(id, TextAt(s, UserField(id, Username)), TextAt(s, UserField(id, SecretKey)), TextAt(s, UserField(id, UserRole)),
         StatusAt(s, id), TextAt(s, UserField(id, UserType)) == "admin")
  }

  ghost predicate HasRows(s: KV, id: string) { exists f :: UserField(id, f) in s }

  function ParseField(u: User, f: Field, v: Val): User {
    match f
    case SecretKey => u.(secretKey := TextOf(v))
    case Username => u.(username := TextOf(v))
    case Status => if v.Byte? then u.(status := v.b) else u
    case UserType => u.(isAdmin := TextOf(v) == "admin")
    case UserRole => u.(role := TextOf(v))
  }

  function NewUser(id: string): User { User(id, "", "", "", 0, false) }

  ghost function Seen(s: KV, done: set<Key>): KV { map k | k in s && k in done :: s[k] }

  lemma SeenStep(s: KV, done: set<Key>, id: string, f: Field)
    requires UserField(id, f) in s && UserField(id, f) !in done
    ensures Decode(Seen(s, done + {UserField(id, f)}), id) == ParseField(Decode(Seen(s, done), id), f, s[UserField(id, f)])
    ensures HasRows(Seen(s, done + {UserField(id, f)}), id)
  {
    assert UserField(id, f) in Seen(s, done + {UserField(id, f)});
  }

  lemma SeenOther(s: KV, done: set<Key>, k: Key, id: string)
    requires !(k.UserField? && k.id == id)
    ensures Decode(Seen(s, done + {k}), id) == Decode(Seen(s, done), id)
    ensures HasRows(Seen(s, done + {k}), id) <==> HasRows(Seen(s, done), id)
  {
    if f: Field :| UserField(id, f) in Seen(s, done) { assert UserField(id, f) in Seen(s, done + {k}); }
    if f: Field :| UserField(id, f) in Seen(s, done + {k}) { assert UserField(id, f) in Seen(s, done); }
  }

  lemma NotSeen(s: KV, done: set<Key>, id: string)
    requires !HasRows(Seen(s, done), id)
    ensures Decode(Seen(s, done), id) == NewUser(id)
  {
  }

  /** DeserializeUsers over any set of rows, in any order. */
  method DeserializeUsers(rows: KV) returns (users: map<string, User>)
    ensures forall id :: id in users <==> HasRows(rows, id)
    ensures forall id :: id in users ==> users[id] == Decode(rows, id)
  {
    hide Decode, HasRows, ParseField, Seen;
    users := map[];
    var todo := rows.Keys;
    ghost var done: set<Key> := {};
    NoneSeen(rows);
    while todo != {}
      invariant todo <= rows.Keys && done == rows.Keys - todo
      invariant forall id :: id in users <==> HasRows(Seen(rows, done), id)
      invariant forall id :: id in users ==> users[id] == Decode(Seen(rows, done), id)
      decreases |todo|
    {
      var k :| k in todo;
      if k.UserField? {
        var u := if k.id in users then users[k.id] else NewUser(k.id);
        if k.id !in users { NotSeen(rows, done, k.id); }
        SeenStep(rows, done, k.id, k.field);
        users := users[k.id := ParseField(u, k.field, rows[k])];
      }
      forall id | !(k.UserField? && k.id == id)
        ensures Decode(Seen(rows, done + {k}), id) == Decode(Seen(rows, done), id) && HasRows(Seen(rows, done + {k}), id) == HasRows(Seen(rows, done), id)
      {
        SeenOther(rows, done, k, id);
      }
      done, todo := done + {k}, todo - {k};
    }
    AllSeen(rows, done);
  }

  lemma NoneSeen(rows: KV)
    ensures forall id :: !HasRows(Seen(rows, {}), id)
  {
  }

  lemma AllSeen(rows: KV, done: set<Key>)
    requires done == rows.Keys
    ensures Seen(rows, done) == rows
  {
  }

  /** Serializing and then deserializing is the identity, also over an older record of the user
      that has no text where the new one has none. */
  lemma {:induction false} SerializeRoundTrip(s: KV, u: User)
    requires u.username == "" ==> TextAt(s, UserField(u.id, Username)) == ""
    requires u.secretKey == "" ==> TextAt(s, UserField(u.id, SecretKey)) == ""
    requires u.role == "" ==> TextAt(s, UserField(u.id, UserRole)) == ""
    ensures Decode(ApplyAll(s, UserChanges(u)), u.id) == u && HasRows(ApplyAll(s, UserChanges(u)), u.id)
  {
    hide ApplyAll, UserChanges;
    UserChangesApply(s, u);
    WithUserRows(s, u);
  }

  lemma WithUserRows(s: KV, u: User)
    requires u.username == "" ==> TextAt(s, UserField(u.id, Username)) == ""
    requires u.secretKey == "" ==> TextAt(s, UserField(u.id, SecretKey)) == ""
    requires u.role == "" ==> TextAt(s, UserField(u.id, UserRole)) == ""
    ensures Decode(WithUser(s, u), u.id) == u && HasRows(WithUser(s, u), u.id)
  {
    var s' := WithUser(s, u);
    assert UserField(u.id, Status) in s' && StatusAt(s', u.id) == u.status;
    assert TextAt(s', UserField(u.id, Username)) == u.username;
    assert TextAt(s', UserField(u.id, SecretKey)) == u.secretKey;
    assert TextAt(s', UserField(u.id, UserRole)) == u.role;
  }

  // ----- lookups -----

  ghost predicate Names(s: KV, name: string, n: string) { name <= n && NameIdx(n) in s && TextOf(s[NameIdx(n)]) != "" }

  /** The lookup of a name is a prefix read: it hits every index entry that starts with the name. */
  ghost predicate PrefixTaken(s: KV, name: string) { exists n :: Names(s, name, n) }

  ghost function Lookup(s: KV, id: string): Option<User> {
    if id != "" && HasRows(s, id) then Some(Decode(s, id)) else None
  }

  /** White space as Unicode has it. */
  predicate IsSpace(c: char) {
    || c == ' ' || ('\t' <= c <= '\r') || c == '\U{85}' || c == '\U{A0}' || c == '\U{1680}' || ('\U{2000}' <= c <= '\U{200A}')
    || c == '\U{2028}' || c == '\U{2029}' || c == '\U{202F}' || c == '\U{205F}' || c == '\U{3000}'
  }

  function DropSpaceLeft(s: string): string { if s != "" && IsSpace(s[0]) then DropSpaceLeft(s[1..]) else s }
  function DropSpaceRight(s: string): string { if s != "" && IsSpace(s[|s|-1]) then DropSpaceRight(s[..|s|-1]) else s }
  function TrimSpace(s: string): string { DropSpaceRight(DropSpaceLeft(s)) }

  // ----- what PutUser accepts, and what it then writes -----

  ghost predicate AcceptsCreate(s: KV, req: UserReq) {
    TrimSpace(req.username) != "" && req.username != ADMIN && !PrefixTaken(s, req.username)
  }

  function Renames(req: UserReq, e: User): bool { req.username != "" && req.username != e.username }

  ghost predicate AcceptsUpdate(s: KV, req: UserReq) {
    Lookup(s, req.userId).Some?
    && (var e := Lookup(s, req.userId).value;
        (Renames(req, e) ==> !PrefixTaken(s, req.username) && !e.isAdmin && req.username != ADMIN)
        && (req.newSecretKey != "" ==> e.isAdmin))
  }

  /** An id is generated only when the request carries none. */
  function NewId(req: UserReq, uuid: string): string { if req.userId == "" then uuid else req.userId }

  function CreatedUser(req: UserReq, uuid: string, enc: string -> string, rnd: string): User {
    User(NewId(req, uuid), req.username, enc(if req.isAdmin then DEFAULT_ADMIN_KEY else rnd), if req.isAdmin then "admin" else "user", 0, req.isAdmin)
  }

  function UpdatedUser(req: UserReq, e: User, enc: string -> string): User {
    e.(username := if Renames(req, e) then req.username else e.username,
       secretKey := if req.newSecretKey != "" then enc(req.newSecretKey) else e.secretKey)
  }

  function PutChanges(u: User, oldName: string): seq<Change<Key, Val>> {
    UserChanges(u) + if oldName != "" then [Del(NameIdx(oldName))] else []
  }

  function AdminUser(key: string, enc: string -> string): User {
    User(NIL_UUID, ADMIN, enc(if key == "" then DEFAULT_ADMIN_KEY else key), "admin", 0, true)
  }

  /** The answer to a request; it carries the plain key when one was set, and no key otherwise. */
  datatype Reply = Accepted(user: User, plainKey: string) | Rejected

  // ----- the handlers -----

  class UserStore {
    var store: KV

    constructor ()
      ensures store == map[]
    {
      store := map[];
    }

    /** The secondary-index read behind every name lookup: some non-empty hit, in map order. */
    method GetUserIDByUsername(name: string) returns (id: string)
      ensures name == "" ==> id == ""
      ensures name != "" ==> (id != "" <==> PrefixTaken(store, name))
      ensures id != "" ==> exists n :: Names(store, name, n) && TextOf(store[NameIdx(n)]) == id
    {
      id := "";
      if name == "" {
        return;
      }
      var todo := store.Keys;
      while todo != {}
        invariant todo <= store.Keys && id == ""
        invariant forall n :: Names(store, name, n) ==> NameIdx(n) in todo
        decreases |todo|
      {
        var k :| k in todo;
        if k.NameIdx? && name <= k.name && TextOf(store[k]) != "" {
          assert Names(store, name, k.name);
          return TextOf(store[k]);
        }
        todo := todo - {k};
      }
    }

    method CheckUserExistsByID(id: string) returns (r: Option<User>)
      ensures r == Lookup(store, id)
    {
      if id == "" {
        return None;
      }
      var rows := map k | k in store && k.UserField? && id <= k.id :: store[k];
      var users := DeserializeUsers(rows);
      SameRows(store, rows, id);
      r := if id in users then Some(users[id]) else None;
    }

    /** A user with defaults, an id unless the request brings one, and a key. */
    method HandleCreateUser(req: UserReq, uuid: string, enc: string -> string, rnd: string) returns (user: User, plainKey: string)
      ensures user.id == (if req.userId == "" then uuid else req.userId) && user.username == req.username && user.status == 0
      ensures if req.isAdmin then user.isAdmin && user.role == "admin" && plainKey == "niova-admin-secret-key"
              else !user.isAdmin && user.role == "user" && plainKey == rnd
      ensures user.secretKey == enc(plainKey)
    {
      var id := req.userId;
      if id == "" {
        id := uuid;
      }
      user := NewUser(id).(username := req.username, isAdmin := req.isAdmin, role := "user");
      if req.isAdmin {
        user := user.(role := ADMIN_ROLE);
      }
      plainKey := rnd;
      if req.isAdmin {
        plainKey := DEFAULT_ADMIN_KEY;
      }
      user := user.(secretKey := enc(plainKey));
    }

    method HandleUpdateUser(req: UserReq, e: User, enc: string -> string) returns (r: Option<User>, plainKey: string)
      ensures r.Some? <==> (Renames(req, e) ==> !e.isAdmin && req.username != ADMIN) && (req.newSecretKey != "" ==> e.isAdmin)
      ensures r.Some? ==> r.value.id == e.id && r.value.role == e.role && r.value.status == e.status && r.value.isAdmin == e.isAdmin
      ensures r.Some? ==> r.value.username == (if req.username == "" then e.username else req.username)
      ensures r.Some? ==> plainKey == req.newSecretKey && r.value.secretKey == if plainKey == "" then e.secretKey else enc(plainKey)
    {
      plainKey := "";
      var user := e;
      if req.username != "" && req.username != user.username {
        if user.isAdmin {
          return None, "";
        }
        if req.username == ADMIN {
          return None, "";
        }
        user := user.(username := req.username);
      }
      if req.newSecretKey != "" {
        if !user.isAdmin {
          return None, "";
        }
        user := user.(secretKey := enc(req.newSecretKey));
        plainKey := req.newSecretKey;
      }
      r := Some(user);
    }

    /** Write-prep of a create or an update; the caller is already authorized. */
    method PutUser(req: UserReq, uuid: string, enc: string -> string, rnd: string) returns (r: Reply, chgs: seq<Change<Key, Val>>)
      ensures r.Accepted? <==> if req.isUpdate then AcceptsUpdate(store, req) else AcceptsCreate(store, req)
      ensures r.Rejected? ==> chgs == []
      ensures r.Accepted? && !req.isUpdate ==> r.user == CreatedUser(req, uuid, enc, rnd) && chgs == PutChanges(r.user, "")
      ensures r.Accepted? && req.isUpdate ==>
                var e := Lookup(store, req.userId).value;
                r.user == UpdatedUser(req, e, enc) && chgs == PutChanges(r.user, if Renames(req, e) then e.username else "")
      ensures r.Accepted? && (r.plainKey != "" || !req.isUpdate) ==> r.user.secretKey == enc(r.plainKey)
      ensures r.Accepted? && req.isUpdate ==> r.plainKey == req.newSecretKey
    {
      hide PrefixTaken, UserChanges, Lookup;
      chgs := [];
      var oldUsername, plainKey := "", "";
      var user;
      if req.isUpdate {
        var existing := CheckUserExistsByID(req.userId);
        if existing.None? {
          return Rejected, [];
        }
        if req.username != "" && req.username != existing.value.username {
          var taken := GetUserIDByUsername(req.username);
          if taken != "" {
            return Rejected, [];
          }
          oldUsername := existing.value.username;
        }
        var updated;
        updated, plainKey := HandleUpdateUser(req, existing.value, enc);
        if updated.None? {
          return Rejected, [];
        }
        user := updated.value;
      } else {
        if TrimSpace(req.username) == "" {
          return Rejected, [];
        }
        if req.username == ADMIN {
          return Rejected, [];
        }
        TrimEmpty();
        var taken := GetUserIDByUsername(req.username);
        if taken != "" {
          return Rejected, [];
        }
        user, plainKey := HandleCreateUser(req, uuid, enc, rnd);
      }
      chgs := Serialize(user);
      if oldUsername != "" {
        chgs := chgs + [Del(NameIdx(oldUsername))];
      }
      r := Accepted(user, plainKey);
    }

    method ApplyCommitChanges(chgs: seq<Change<Key, Val>>)
      modifies this
      ensures store == ApplyAll(old(store), chgs)
    {
      for i := 0 to |chgs|
        invariant store == ApplyAll(old(store), chgs[..i])
      {
        ApplyNext(old(store), chgs, i);
        match chgs[i]
        case Put(k, v) => store := store[k := v];
        case Del(k) => store := store - {k};
      }
      assert chgs[..|chgs|] == chgs;
    }

    /** Bootstraps the one admin, under the nil UUID; a second call changes nothing. */
    method CreateAdminUser(req: UserReq, enc: string -> string) returns (ok: bool)
      modifies this
      ensures ok <==> TrimSpace(req.username) == ADMIN
      ensures store == if ok && Lookup(old(store), NIL_UUID).None?
                       then ApplyAll(old(store), UserChanges(AdminUser(req.newSecretKey, enc))) else old(store)
    {
      var username := TrimSpace(req.username);
      if username == "" || username != ADMIN {
        return false;
      }
      var secretKey := req.newSecretKey;
      if secretKey == "" {
        secretKey := DEFAULT_ADMIN_KEY;
      }
      var existing := CheckUserExistsByID(NIL_UUID);
      if existing.Some? {
        return true;
      }
      var chgs := Serialize(User(NIL_UUID, username, enc(secretKey), "admin", 0, true));
      ApplyCommitChanges(chgs);
      ok := true;
    }
  }

  lemma SameRows(s: KV, rows: KV, id: string)
    requires rows == map k | k in s && k.UserField? && id <= k.id :: s[k]
    ensures Decode(rows, id) == Decode(s, id) && (HasRows(rows, id) <==> HasRows(s, id))
  {
    if f: Field :| UserField(id, f) in s { assert UserField(id, f) in rows; }
  }

  lemma TrimEmpty()
    ensures TrimSpace("") == ""
  {
  }

  // ----- the index over every run -----

  /** The username index mirrors the records, and the admin is the nil UUID. */
  ghost predicate NamesIndexed(s: KV) {
    && (forall n, id :: IsAt(s, NameIdx(n), Text(id)) <==> IsAt(s, UserField(id, Username), Text(n)))
    && (forall n :: NameIdx(n) in s ==> n != "" && TextOf(s[NameIdx(n)]) != "")
    && (forall id, f :: UserField(id, f) in s ==> UserField(id, Username) in s && s[UserField(id, Username)].Text?)
    && (forall id :: IsAt(s, UserField(id, Username), Text(ADMIN)) <==> id == NIL_UUID && HasRows(s, id))
    && (HasRows(s, NIL_UUID) ==> Decode(s, NIL_UUID).isAdmin)
  }

  ghost predicate Fresh(s: KV, uuid: string) { uuid != "" && uuid != NIL_UUID && !HasRows(s, uuid) }

  /** One request, prepared and applied before the next. */
  ghost predicate Creates(s: KV, s': KV, req: UserReq, uuid: string, enc: string -> string, rnd: string) {
    Fresh(s, NewId(req, uuid)) && AcceptsCreate(s, req) && s' == ApplyAll(s, PutChanges(CreatedUser(req, uuid, enc, rnd), ""))
  }

  ghost predicate Updates(s: KV, s': KV, req: UserReq, enc: string -> string) {
    AcceptsUpdate(s, req)
    && var e := Lookup(s, req.userId).value;
       s' == ApplyAll(s, PutChanges(UpdatedUser(req, e, enc), if Renames(req, e) then e.username else ""))
  }

  ghost predicate Bootstraps(s: KV, s': KV, key: string, enc: string -> string) {
    s' == if Lookup(s, NIL_UUID).None? then ApplyAll(s, UserChanges(AdminUser(key, enc))) else s
  }

  ghost predicate Step(s: KV, s': KV, enc: string -> string) {
    || s' == s
    || (exists req, uuid, rnd :: Creates(s, s', req, uuid, enc, rnd))
    || (exists req :: Updates(s, s', req, enc))
    || (exists key :: Bootstraps(s, s', key, enc))
  }

  ghost predicate Run(ss: seq<KV>, enc: string -> string) {
    ss != [] && if |ss| == 1 then ss[0] == map[] else Run(ss[..|ss|-1], enc) && Step(ss[|ss|-2], ss[|ss|-1], enc)
  }

  /** What writing a named user does to the keys the index is about. */
  ghost predicate Wrote(s: KV, s': KV, u: User) {
    && (forall id, f :: id != u.id ==> SameAt(s, s', UserField(id, f)))
    && (forall n :: n != u.username ==> SameAt(s, s', NameIdx(n)))
    && IsAt(s', UserField(u.id, Username), Text(u.username)) && IsAt(s', NameIdx(u.username), Text(u.id))
    && Decode(s', u.id).isAdmin == u.isAdmin
  }

  lemma WithUserWrote(s: KV, u: User)
    requires u.username != ""
    ensures Wrote(s, WithUser(s, u), u)
  {
    var s' := WithUser(s, u);
    forall id, f | id != u.id ensures SameAt(s, s', UserField(id, f)) {}
    forall n | n != u.username ensures SameAt(s, s', NameIdx(n)) {}
  }

  lemma RowsAfter(s: KV, s': KV, u: User, id: string)
    requires Wrote(s, s', u)
    ensures HasRows(s', id) <==> HasRows(s, id) || id == u.id
    ensures id != u.id ==> Decode(s', id) == Decode(s, id)
  {
    if id != u.id {
      forall f ensures SameAt(s, s', UserField(id, f)) {}
      assert SameAt(s, s', UserField(id, Username)) && SameAt(s, s', UserField(id, SecretKey)) && SameAt(s, s', UserField(id, UserRole));
      assert SameAt(s, s', UserField(id, Status)) && SameAt(s, s', UserField(id, UserType));
    }
  }

  /** The user is new under this id and this name, or keeps its name. */
  lemma WroteIndexed(s: KV, s': KV, u: User)
    requires NamesIndexed(s) && Wrote(s, s', u) && u.id != "" && u.username != ""
    requires (!HasRows(s, u.id) && NameIdx(u.username) !in s) || (IsAt(s, UserField(u.id, Username), Text(u.username)))
    requires (u.username == ADMIN <==> u.id == NIL_UUID) && (u.id == NIL_UUID ==> u.isAdmin)
    ensures NamesIndexed(s')
  {
    hide HasRows, Decode;
    forall f ensures UserField(u.id, f) in s ==> HasRows(s, u.id) { RowsOf(s, u.id, f); }
    forall n, id ensures IsAt(s', NameIdx(n), Text(id)) <==> IsAt(s', UserField(id, Username), Text(n)) {
      assert IsAt(s, NameIdx(n), Text(id)) <==> IsAt(s, UserField(id, Username), Text(n));
      assert IsAt(s, NameIdx(u.username), Text(id)) <==> IsAt(s, UserField(id, Username), Text(u.username));
      if n != u.username { assert SameAt(s, s', NameIdx(n)); }
      if id != u.id { assert SameAt(s, s', UserField(id, Username)); }
    }
    forall n | NameIdx(n) in s' ensures n != "" && TextOf(s'[NameIdx(n)]) != "" {
      if n != u.username { assert SameAt(s, s', NameIdx(n)); }
    }
    forall id, f | UserField(id, f) in s' ensures UserField(id, Username) in s' && s'[UserField(id, Username)].Text? {
      if id != u.id { assert SameAt(s, s', UserField(id, f)) && SameAt(s, s', UserField(id, Username)); }
    }
    AdminAfter(s, s', u);
  }

  lemma AdminAfter(s: KV, s': KV, u: User)
    requires NamesIndexed(s) && Wrote(s, s', u)
    requires (u.username == ADMIN <==> u.id == NIL_UUID) && (u.id == NIL_UUID ==> u.isAdmin)
    ensures forall id :: IsAt(s', UserField(id, Username), Text(ADMIN)) <==> id == NIL_UUID && HasRows(s', id)
    ensures HasRows(s', NIL_UUID) ==> Decode(s', NIL_UUID).isAdmin
  {
    hide HasRows, Decode;
    forall id ensures IsAt(s', UserField(id, Username), Text(ADMIN)) <==> id == NIL_UUID && HasRows(s', id) {
      RowsAfter(s, s', u, id);
      assert IsAt(s, UserField(id, Username), Text(ADMIN)) <==> id == NIL_UUID && HasRows(s, id);
      if id != u.id { assert SameAt(s, s', UserField(id, Username)); }
    }
    RowsAfter(s, s', u, NIL_UUID);
  }

  lemma RowsOf(s: KV, id: string, f: Field)
    ensures UserField(id, f) in s ==> HasRows(s, id)
  {
  }

  lemma CreateKeepsIndex(s: KV, s': KV, req: UserReq, uuid: string, enc: string -> string, rnd: string)
    requires NamesIndexed(s) && Creates(s, s', req, uuid, enc, rnd)
    ensures NamesIndexed(s')
  {
    hide ApplyAll, UserChanges, HasRows, WithUser, DropSpaceLeft, DropSpaceRight;
    var u := CreatedUser(req, uuid, enc, rnd);
    TrimEmpty();
    NotIndexed(s, req.username);
    UserChangesApply(s, u);
    assert PutChanges(u, "") == UserChanges(u);
    WithUserWrote(s, u);
    WroteIndexed(s, s', u);
  }

  /** An accepted create keeps the index exact if and only if its id is new: an id that the request
      brings along is not checked, and the record under it is overwritten. */
  lemma {:induction false} CreateKeepsIndexIff(s: KV, req: UserReq, uuid: string, enc: string -> string, rnd: string)
    requires NamesIndexed(s) && AcceptsCreate(s, req) && uuid != ""
    ensures NamesIndexed(ApplyAll(s, PutChanges(CreatedUser(req, uuid, enc, rnd), ""))) <==> Fresh(s, NewId(req, uuid))
  {
    hide ApplyAll, UserChanges, WithUser, DropSpaceLeft, DropSpaceRight, NamesIndexed, HasRows;
    var u := CreatedUser(req, uuid, enc, rnd);
    var s' := ApplyAll(s, PutChanges(u, ""));
    if Fresh(s, u.id) {
      CreateKeepsIndex(s, s', req, uuid, enc, rnd);
    } else {
      TrimEmpty();
      NotIndexed(s, req.username);
      UserChangesApply(s, u);
      assert PutChanges(u, "") == UserChanges(u);
      WithUserWrote(s, u);
      OverwriteBreaksIndex(s, s', u);
    }
  }

  /** "bob" is user 1; a create of "eve" that brings the id 1 along is accepted, takes over the record, and
      leaves the entry of "bob" pointing to it. */
  lemma EveOverwritesBob(enc: string -> string, rnd: string)
    ensures var bob, eve := UserReq("bob", "", "", false, false), UserReq("eve", "1", "", false, false);
            var s1 := ApplyAll(map[], PutChanges(CreatedUser(bob, "1", enc, rnd), ""));
            var s2 := ApplyAll(s1, PutChanges(CreatedUser(eve, "2", enc, rnd), ""));
            NamesIndexed(s1) && AcceptsCreate(s1, eve) && !Fresh(s1, NewId(eve, "2"))
            && IsAt(s2, NameIdx("bob"), Text("1")) && IsAt(s2, UserField("1", Username), Text("eve")) && !NamesIndexed(s2)
  {
    hide ApplyAll, UserChanges, NamesIndexed;
    var bob, eve := UserReq("bob", "", "", false, false), UserReq("eve", "1", "", false, false);
    var u1, u2 := CreatedUser(bob, "1", enc, rnd), CreatedUser(eve, "2", enc, rnd);
    assert PutChanges(u1, "") == UserChanges(u1) && PutChanges(u2, "") == UserChanges(u2);
    UserChangesApply(map[], u1);
    var s1 := WithUser(map[], u1);
    UserChangesApply(s1, u2);
    var s2 := WithUser(s1, u2);
    NoSpaceNoTrim("bob");
    NoSpaceNoTrim("eve");
    EmptyIndexed();
    assert Creates(map[], s1, bob, "1", enc, rnd);
    CreateKeepsIndex(map[], s1, bob, "1", enc, rnd);
    assert UserField("1", Username) in s1;
    if NamesIndexed(s2) { EntryNames(s2, "bob", "1"); }
  }

  lemma OverwriteBreaksIndex(s: KV, s': KV, u: User)
    requires NamesIndexed(s) && Wrote(s, s', u) && NameIdx(u.username) !in s && u.username != ADMIN
    requires u.id == NIL_UUID || HasRows(s, u.id)
    ensures !NamesIndexed(s')
  {
    hide HasRows, Decode, NamesIndexed;
    RowsAfter(s, s', u, u.id);
    if u.id == NIL_UUID {
      AdminRow(s');
    } else {
      UserNamed(s, u.id);
      var n := Decode(s, u.id).username;
      assert SameAt(s, s', NameIdx(n));
      if NamesIndexed(s') { EntryNames(s', n, u.id); }
    }
  }

  lemma AdminRow(s: KV)
    ensures NamesIndexed(s) && HasRows(s, NIL_UUID) ==> IsAt(s, UserField(NIL_UUID, Username), Text(ADMIN))
  {
  }

  lemma EntryNames(s: KV, n: string, id: string)
    requires NamesIndexed(s) && IsAt(s, NameIdx(n), Text(id))
    ensures IsAt(s, UserField(id, Username), Text(n))
  {
  }

  lemma NotIndexed(s: KV, name: string)
    requires NamesIndexed(s) && !PrefixTaken(s, name)
    ensures NameIdx(name) !in s
  {
    assert !Names(s, name, name);
  }

  /** An update in place, with or without a new name. */
  lemma UpdateKeepsIndex(s: KV, s': KV, req: UserReq, enc: string -> string)
    requires NamesIndexed(s) && Updates(s, s', req, enc)
    ensures NamesIndexed(s')
  {
    hide ApplyAll, UserChanges, HasRows, WithUser;
    var e := Lookup(s, req.userId).value;
    var u := UpdatedUser(req, e, enc);
    UserChangesApply(s, u);
    UserNamed(s, e.id);
    if Renames(req, e) {
      NotIndexed(s, req.username);
      ApplyAllAppend(s, UserChanges(u), [Del(NameIdx(e.username))]);
      ApplySingle(ApplyAll(s, UserChanges(u)), Del(NameIdx(e.username)));
      WithUserWrote(s, u);
      RenameIndexed(s, WithUser(s, u), e, u);
    } else {
      assert PutChanges(u, "") == UserChanges(u);
      WithUserWrote(s, u);
      AdminKept(s, e.id);
      WroteIndexed(s, s', u);
    }
  }

  lemma UserNamed(s: KV, id: string)
    requires NamesIndexed(s) && HasRows(s, id)
    ensures var n := Decode(s, id).username; n != "" && IsAt(s, UserField(id, Username), Text(n)) && IsAt(s, NameIdx(n), Text(id))
    ensures Decode(s, id).username == ADMIN <==> id == NIL_UUID
  {
    var f: Field :| UserField(id, f) in s;
    assert UserField(id, Username) in s;
    var n := Decode(s, id).username;
    assert IsAt(s, NameIdx(n), Text(id)) <==> IsAt(s, UserField(id, Username), Text(n));
    assert IsAt(s, UserField(id, Username), Text(ADMIN)) <==> id == NIL_UUID && HasRows(s, id);
  }

  /** A new name for an old user, and the old entry gone. */
  lemma RenameIndexed(s: KV, s1: KV, e: User, u: User)
    requires NamesIndexed(s) && HasRows(s, e.id) && Decode(s, e.id) == e && u.id == e.id && u.isAdmin == e.isAdmin && !e.isAdmin
    requires u.username != "" && u.username != e.username && u.username != ADMIN && NameIdx(u.username) !in s && Wrote(s, s1, u)
    ensures NamesIndexed(s1 - {NameIdx(e.username)})
  {
    hide HasRows, Decode;
    var s' := s1 - {NameIdx(e.username)};
    UserNamed(s, e.id);
    assert e.id != NIL_UUID;
    AdminAfter(s, s1, u);
    forall id ensures HasRows(s', id) <==> HasRows(s1, id) { RowsWithoutIndex(s1, e.username, id); }
    forall n, id ensures IsAt(s', NameIdx(n), Text(id)) <==> IsAt(s', UserField(id, Username), Text(n)) {
      assert IsAt(s, NameIdx(n), Text(id)) <==> IsAt(s, UserField(id, Username), Text(n));
      assert IsAt(s, NameIdx(e.username), Text(id)) <==> IsAt(s, UserField(id, Username), Text(e.username));
      if n != u.username { assert SameAt(s, s1, NameIdx(n)); }
      if id != u.id { assert SameAt(s, s1, UserField(id, Username)); }
    }
    forall n | NameIdx(n) in s' ensures n != "" && TextOf(s'[NameIdx(n)]) != "" {
      if n != u.username { assert SameAt(s, s1, NameIdx(n)); }
    }
    forall id, f | UserField(id, f) in s' ensures UserField(id, Username) in s' && s'[UserField(id, Username)].Text? {
      if id != u.id { assert SameAt(s, s1, UserField(id, f)) && SameAt(s, s1, UserField(id, Username)); }
    }
    forall id ensures IsAt(s', UserField(id, Username), Text(ADMIN)) <==> id == NIL_UUID && HasRows(s', id) {
      assert IsAt(s1, UserField(id, Username), Text(ADMIN)) <==> id == NIL_UUID && HasRows(s1, id);
    }
    RowsWithoutIndex(s1, e.username, NIL_UUID);
  }

  lemma RowsWithoutIndex(s: KV, n: string, id: string)
    ensures HasRows(s - {NameIdx(n)}, id) <==> HasRows(s, id)
    ensures Decode(s - {NameIdx(n)}, id) == Decode(s, id)
  {
    if f: Field :| UserField(id, f) in s { assert UserField(id, f) in s - {NameIdx(n)}; }
  }

  lemma BootstrapKeepsIndex(s: KV, s': KV, key: string, enc: string -> string)
    requires NamesIndexed(s) && Bootstraps(s, s', key, enc)
    ensures NamesIndexed(s')
  {
    hide ApplyAll, UserChanges, HasRows, WithUser;
    if Lookup(s, NIL_UUID).None? {
      var u := AdminUser(key, enc);
      UserChangesApply(s, u);
      AdminNotIndexed(s);
      WithUserWrote(s, u);
      WroteIndexed(s, s', u);
    }
  }

  lemma AdminKept(s: KV, id: string)
    requires NamesIndexed(s) && HasRows(s, id)
    ensures id == NIL_UUID ==> Decode(s, id).isAdmin
  {
  }

  lemma AdminNotIndexed(s: KV)
    requires NamesIndexed(s) && !HasRows(s, NIL_UUID)
    ensures NameIdx(ADMIN) !in s
  {
    forall id ensures !IsAt(s, NameIdx(ADMIN), Text(id)) {
      assert IsAt(s, NameIdx(ADMIN), Text(id)) <==> IsAt(s, UserField(id, Username), Text(ADMIN));
      assert IsAt(s, UserField(id, Username), Text(ADMIN)) <==> id == NIL_UUID && HasRows(s, id);
    }
    assert NameIdx(ADMIN) in s ==> IsAt(s, NameIdx(ADMIN), Text(TextOf(s[NameIdx(ADMIN)])));
  }

  /** After every sequential run the index has an entry for a name exactly when a user carries it. */
  lemma {:induction false} RunKeepsIndex(ss: seq<KV>, enc: string -> string)
    requires Run(ss, enc)
    ensures NamesIndexed(ss[|ss|-1])
  {
    hide NamesIndexed, Creates, Updates, Bootstraps;
    if |ss| == 1 {
      EmptyIndexed();
    } else {
      var s, s' := ss[|ss|-2], ss[|ss|-1];
      RunKeepsIndex(ss[..|ss|-1], enc);
      if req, uuid, rnd :| Creates(s, s', req, uuid, enc, rnd) { CreateKeepsIndex(s, s', req, uuid, enc, rnd); }
      else if req :| Updates(s, s', req, enc) { UpdateKeepsIndex(s, s', req, enc); }
      else if key :| Bootstraps(s, s', key, enc) { BootstrapKeepsIndex(s, s', key, enc); }
    }
  }

  lemma EmptyIndexed()
    ensures NamesIndexed(map[])
  {
  }

  // ----- what is left when requests may bring any id along -----

  /** Every record is complete and has its index entry; entries of former names may be left over. */
  ghost predicate RecordsIndexed(s: KV) {
    && (forall id, n :: IsAt(s, UserField(id, Username), Text(n)) ==> n != "" && IsAt(s, NameIdx(n), Text(id)))
    && (forall n :: NameIdx(n) in s ==> TextOf(s[NameIdx(n)]) != "")
    && (forall id, f :: UserField(id, f) in s ==> UserField(id, Username) in s && s[UserField(id, Username)].Text?)
    && (forall id :: IsAt(s, UserField(id, Username), Text(ADMIN)) ==> id == NIL_UUID)
  }

  /** A create under a generated id, which is fresh, or under whatever id the request carries. */
  ghost predicate CreatesAnyhow(s: KV, s': KV, req: UserReq, uuid: string, enc: string -> string, rnd: string) {
    (req.userId == "" ==> Fresh(s, uuid)) && AcceptsCreate(s, req) && s' == ApplyAll(s, PutChanges(CreatedUser(req, uuid, enc, rnd), ""))
  }

  ghost predicate AnyStep(s: KV, s': KV, enc: string -> string) {
    || s' == s
    || (exists req, uuid, rnd :: CreatesAnyhow(s, s', req, uuid, enc, rnd))
    || (exists req :: Updates(s, s', req, enc))
    || (exists key :: Bootstraps(s, s', key, enc))
  }

  ghost predicate AnyRun(ss: seq<KV>, enc: string -> string) {
    ss != [] && if |ss| == 1 then ss[0] == map[] else AnyRun(ss[..|ss|-1], enc) && AnyStep(ss[|ss|-2], ss[|ss|-1], enc)
  }

  /** A user written under a free name, or again under its own. */
  lemma WroteRecords(s: KV, s': KV, u: User)
    requires RecordsIndexed(s) && Wrote(s, s', u) && u.id != "" && u.username != ""
    requires NameIdx(u.username) !in s || IsAt(s, UserField(u.id, Username), Text(u.username))
    requires u.username == ADMIN ==> u.id == NIL_UUID
    ensures RecordsIndexed(s')
  {
    forall id, n | IsAt(s', UserField(id, Username), Text(n)) ensures n != "" && IsAt(s', NameIdx(n), Text(id)) {
      if id != u.id {
        assert SameAt(s, s', UserField(id, Username));
        assert IsAt(s, NameIdx(n), Text(id));
        assert n != u.username;
        assert SameAt(s, s', NameIdx(n));
      }
    }
    forall n | NameIdx(n) in s' ensures TextOf(s'[NameIdx(n)]) != "" {
      if n != u.username { assert SameAt(s, s', NameIdx(n)); }
    }
    forall id, f | UserField(id, f) in s' ensures UserField(id, Username) in s' && s'[UserField(id, Username)].Text? {
      if id != u.id { assert SameAt(s, s', UserField(id, f)) && SameAt(s, s', UserField(id, Username)); }
    }
    forall id | IsAt(s', UserField(id, Username), Text(ADMIN)) ensures id == NIL_UUID {
      if id != u.id { assert SameAt(s, s', UserField(id, Username)); }
    }
  }

  lemma FreeName(s: KV, name: string)
    requires RecordsIndexed(s) && !PrefixTaken(s, name)
    ensures NameIdx(name) !in s
  {
    assert !Names(s, name, name);
  }

  lemma RecordNamed(s: KV, id: string)
    requires RecordsIndexed(s) && HasRows(s, id)
    ensures var n := Decode(s, id).username; n != "" && IsAt(s, UserField(id, Username), Text(n)) && IsAt(s, NameIdx(n), Text(id))
    ensures Decode(s, id).username == ADMIN ==> id == NIL_UUID
  {
    var f: Field :| UserField(id, f) in s;
    assert UserField(id, Username) in s;
    assert IsAt(s, UserField(id, Username), Text(Decode(s, id).username));
  }

  lemma AnyCreateKeepsRecords(s: KV, s': KV, req: UserReq, uuid: string, enc: string -> string, rnd: string)
    requires RecordsIndexed(s) && CreatesAnyhow(s, s', req, uuid, enc, rnd)
    ensures RecordsIndexed(s')
  {
    hide ApplyAll, UserChanges, WithUser, DropSpaceLeft, DropSpaceRight, RecordsIndexed, HasRows;
    var u := CreatedUser(req, uuid, enc, rnd);
    TrimEmpty();
    FreeName(s, req.username);
    UserChangesApply(s, u);
    assert PutChanges(u, "") == UserChanges(u);
    WithUserWrote(s, u);
    WroteRecords(s, s', u);
  }

  lemma UpdateKeepsRecords(s: KV, s': KV, req: UserReq, enc: string -> string)
    requires RecordsIndexed(s) && Updates(s, s', req, enc)
    ensures RecordsIndexed(s')
  {
    hide ApplyAll, UserChanges, HasRows, WithUser, RecordsIndexed;
    var e := Lookup(s, req.userId).value;
    var u := UpdatedUser(req, e, enc);
    UserChangesApply(s, u);
    RecordNamed(s, e.id);
    WithUserWrote(s, u);
    if Renames(req, e) {
      FreeName(s, req.username);
      ApplyAllAppend(s, UserChanges(u), [Del(NameIdx(e.username))]);
      ApplySingle(ApplyAll(s, UserChanges(u)), Del(NameIdx(e.username)));
      WroteRecords(s, WithUser(s, u), u);
      OldEntryGone(s, WithUser(s, u), e, u);
    } else {
      assert PutChanges(u, "") == UserChanges(u);
      WroteRecords(s, s', u);
    }
  }

  /** Nobody carries the old name any more, so its entry can go. */
  lemma OldNameUnused(s: KV, s1: KV, e: User, u: User, id: string)
    requires RecordsIndexed(s1) && Wrote(s, s1, u) && u.id == e.id && u.username != e.username
    requires IsAt(s, NameIdx(e.username), Text(e.id))
    ensures !IsAt(s1, UserField(id, Username), Text(e.username))
  {
    assert SameAt(s, s1, NameIdx(e.username));
    assert IsAt(s1, UserField(id, Username), Text(e.username)) ==> IsAt(s1, NameIdx(e.username), Text(id));
  }

  lemma OldEntryGone(s: KV, s1: KV, e: User, u: User)
    requires RecordsIndexed(s) && RecordsIndexed(s1) && Wrote(s, s1, u) && u.id == e.id && u.username != e.username
    requires IsAt(s, NameIdx(e.username), Text(e.id))
    ensures RecordsIndexed(s1 - {NameIdx(e.username)})
  {
    hide Wrote;
    forall id ensures !IsAt(s1, UserField(id, Username), Text(e.username)) { OldNameUnused(s, s1, e, u, id); }
    UnusedEntryGone(s1, e.username);
  }

  lemma UnusedEntryGone(s: KV, name: string)
    requires RecordsIndexed(s) && forall id :: !IsAt(s, UserField(id, Username), Text(name))
    ensures RecordsIndexed(s - {NameIdx(name)})
  {
    var s' := s - {NameIdx(name)};
    forall id, n | IsAt(s', UserField(id, Username), Text(n)) ensures n != "" && IsAt(s', NameIdx(n), Text(id)) {
      assert IsAt(s, UserField(id, Username), Text(n)) && IsAt(s, NameIdx(n), Text(id));
    }
    forall id, f | UserField(id, f) in s' ensures UserField(id, Username) in s' && s'[UserField(id, Username)].Text? { assert UserField(id, f) in s; }
    forall id | IsAt(s', UserField(id, Username), Text(ADMIN)) ensures id == NIL_UUID { assert IsAt(s, UserField(id, Username), Text(ADMIN)); }
  }

  lemma BootstrapKeepsRecords(s: KV, s': KV, key: string, enc: string -> string)
    requires RecordsIndexed(s) && Bootstraps(s, s', key, enc)
    ensures RecordsIndexed(s')
  {
    hide ApplyAll, UserChanges, HasRows, WithUser, RecordsIndexed;
    if Lookup(s, NIL_UUID).None? {
      var u := AdminUser(key, enc);
      UserChangesApply(s, u);
      WithUserWrote(s, u);
      AdminWrittenFirst(s, s', u);
    }
  }

  lemma AdminWrittenFirst(s: KV, s': KV, u: User)
    requires RecordsIndexed(s) && !HasRows(s, NIL_UUID) && Wrote(s, s', u) && u.id == NIL_UUID && u.username == ADMIN
    ensures RecordsIndexed(s')
  {
    forall id, n | IsAt(s', UserField(id, Username), Text(n)) ensures n != "" && IsAt(s', NameIdx(n), Text(id)) {
      if id != u.id {
        assert SameAt(s, s', UserField(id, Username));
        assert n != ADMIN && SameAt(s, s', NameIdx(n));
      }
    }
    forall n | NameIdx(n) in s' ensures TextOf(s'[NameIdx(n)]) != "" {
      if n != ADMIN { assert SameAt(s, s', NameIdx(n)); }
    }
    forall id, f | UserField(id, f) in s' ensures UserField(id, Username) in s' && s'[UserField(id, Username)].Text? {
      if id != u.id { assert SameAt(s, s', UserField(id, f)) && SameAt(s, s', UserField(id, Username)); }
    }
    forall id ensures IsAt(s', UserField(id, Username), Text(ADMIN)) ==> id == NIL_UUID {
      if id != u.id { assert SameAt(s, s', UserField(id, Username)); }
    }
  }

  /** After every sequential run, whatever ids the requests carry, every record has its index entry. */
  lemma {:induction false} AnyRunKeepsRecords(ss: seq<KV>, enc: string -> string)
    requires AnyRun(ss, enc)
    ensures RecordsIndexed(ss[|ss|-1])
  {
    hide RecordsIndexed, CreatesAnyhow, Updates, Bootstraps;
    if |ss| == 1 {
      NoRecords();
    } else {
      var s, s' := ss[|ss|-2], ss[|ss|-1];
      AnyRunKeepsRecords(ss[..|ss|-1], enc);
      if req, uuid, rnd :| CreatesAnyhow(s, s', req, uuid, enc, rnd) { AnyCreateKeepsRecords(s, s', req, uuid, enc, rnd); }
      else if req :| Updates(s, s', req, enc) { UpdateKeepsRecords(s, s', req, enc); }
      else if key :| Bootstraps(s, s', key, enc) { BootstrapKeepsRecords(s, s', key, enc); }
    }
  }

  lemma NoRecords()
    ensures RecordsIndexed(map[])
  {
  }

  /** Usernames are unique after every sequential run, also of creates that take over a record. */
  lemma {:induction false} UsernamesAreUnique(ss: seq<KV>, enc: string -> string, id1: string, id2: string, n: string)
    requires AnyRun(ss, enc)
    requires IsAt(ss[|ss|-1], UserField(id1, Username), Text(n)) && IsAt(ss[|ss|-1], UserField(id2, Username), Text(n))
    ensures id1 == id2
  {
    AnyRunKeepsRecords(ss, enc);
    var s := ss[|ss|-1];
    assert IsAt(s, NameIdx(n), Text(id1)) && IsAt(s, NameIdx(n), Text(id2));
  }

  // ----- where the prefix read goes too far, and where preparing early does -----

  /** A live name is resolved to its own user, whichever hit the read returns first, if and only if
      no other live name starts with it. */
  lemma ResolvesExactly(s: KV, name: string, owner: string)
    requires NamesIndexed(s) && IsAt(s, NameIdx(name), Text(owner))
    ensures (forall n :: Names(s, name, n) ==> TextOf(s[NameIdx(n)]) == owner) <==> (forall n :: NameIdx(n) in s && name <= n ==> n == name)
  {
    if forall n :: Names(s, name, n) ==> TextOf(s[NameIdx(n)]) == owner {
      forall n | NameIdx(n) in s && name <= n ensures n == name {
        assert Names(s, name, n);
        assert IsAt(s, UserField(owner, Username), Text(name)) && IsAt(s, NameIdx(n), s[NameIdx(n)]);
        IndexEntryIsText(s, n);
        assert IsAt(s, UserField(owner, Username), Text(n));
      }
    }
  }

  lemma IndexEntryIsText(s: KV, n: string)
    requires NamesIndexed(s) && NameIdx(n) in s
    ensures s[NameIdx(n)].Text? && IsAt(s, NameIdx(n), Text(TextOf(s[NameIdx(n)])))
  {
  }

  /** A free name can be refused: "bob" is, while "bobby" exists. */
  lemma BobIsRefused(enc: string -> string, rnd: string)
    ensures var bobby := UserReq("bobby", "", "", false, false);
            var s := ApplyAll(map[], UserChanges(CreatedUser(bobby, "1", enc, rnd)));
            NameIdx("bob") !in s && !AcceptsCreate(s, UserReq("bob", "", "", false, false))
  {
    var u := CreatedUser(UserReq("bobby", "", "", false, false), "1", enc, rnd);
    UserChangesApply(map[], u);
    var s := WithUser(map[], u);
    assert Names(s, "bob", "bobby");
  }

  /** A name can resolve to another user: after "bob" is created, "bobby" is accepted, and then the
      read of "bob" has a hit that is not bob's. */
  lemma BobbyAnswersForBob(enc: string -> string, rnd: string)
    ensures var bob, bobby := UserReq("bob", "", "", false, false), UserReq("bobby", "", "", false, false);
            var s1 := ApplyAll(map[], PutChanges(CreatedUser(bob, "1", enc, rnd), ""));
            var s2 := ApplyAll(s1, PutChanges(CreatedUser(bobby, "2", enc, rnd), ""));
            AcceptsCreate(map[], bob) && AcceptsCreate(s1, bobby)
            && IsAt(s2, NameIdx("bob"), Text("1")) && Names(s2, "bob", "bobby") && TextOf(s2[NameIdx("bobby")]) == "2"
  {
    hide ApplyAll, UserChanges;
    var bob, bobby := UserReq("bob", "", "", false, false), UserReq("bobby", "", "", false, false);
    var u1, u2 := CreatedUser(bob, "1", enc, rnd), CreatedUser(bobby, "2", enc, rnd);
    assert PutChanges(u1, "") == UserChanges(u1) && PutChanges(u2, "") == UserChanges(u2);
    UserChangesApply(map[], u1);
    UserChangesApply(WithUser(map[], u1), u2);
    NoSpaceNoTrim("bob");
    NoSpaceNoTrim("bobby");
  }

  lemma NoSpaceNoTrim(s: string)
    requires s != "" && !IsSpace(s[0]) && !IsSpace(s[|s|-1])
    ensures TrimSpace(s) == s
  {
  }

  /** Two creates prepared on the same state and then both applied keep the index right if and only if
      they ask for different names: preparing reserves nothing. */
  lemma {:induction false} PreparedTwice(s: KV, r1: UserReq, r2: UserReq, id1: string, id2: string, enc: string -> string, rnd: string)
    requires NamesIndexed(s) && Fresh(s, NewId(r1, id1)) && Fresh(s, NewId(r2, id2)) && NewId(r1, id1) != NewId(r2, id2)
    requires AcceptsCreate(s, r1) && AcceptsCreate(s, r2)
    ensures var u1, u2 := CreatedUser(r1, id1, enc, rnd), CreatedUser(r2, id2, enc, rnd);
            NamesIndexed(ApplyAll(ApplyAll(s, PutChanges(u1, "")), PutChanges(u2, ""))) <==> r1.username != r2.username
  {
    hide ApplyAll, UserChanges, DropSpaceLeft, DropSpaceRight, NamesIndexed, HasRows, WithUser, Decode;
    TrimEmpty();
    var u1, u2 := CreatedUser(r1, id1, enc, rnd), CreatedUser(r2, id2, enc, rnd);
    assert PutChanges(u1, "") == UserChanges(u1) && PutChanges(u2, "") == UserChanges(u2);
    UserChangesApply(s, u1);
    var s1 := WithUser(s, u1);
    UserChangesApply(s1, u2);
    NotIndexed(s, r1.username);
    NotIndexed(s, r2.username);
    WithUserWrote(s, u1);
    WithUserWrote(s1, u2);
    WroteIndexed(s, s1, u1);
    RowsAfter(s, s1, u1, u2.id);
    if r1.username != r2.username {
      assert SameAt(s, s1, NameIdx(r2.username));
      WroteIndexed(s1, WithUser(s1, u2), u2);
    } else {
      assert SameAt(s1, WithUser(s1, u2), UserField(u1.id, Username));
      SameNameClash(WithUser(s1, u2), u1.id, u2.id, r1.username);
    }
  }

  lemma SameNameClash(s: KV, id1: string, id2: string, n: string)
    requires IsAt(s, UserField(id1, Username), Text(n)) && IsAt(s, UserField(id2, Username), Text(n)) && id1 != id2
    ensures !NamesIndexed(s)
  {
    if IsAt(s, NameIdx(n), Text(id1)) { assert !IsAt(s, NameIdx(n), Text(id2)); }
  }
}
