/** What the requests to the user store leave in the rows of a record
    (controlplane/user/server/handlers.go, lines 105-343 and 489-570). */
module Accounts {
  import opened Changes
  import opened Finite
  import opened Users

  // ----- single requests -----

  /** A create stores the name, the role the request asks for, and the key that goes with it, under the id
      the request carries or else the generated one. */
  lemma CreateStores(s: KV, s': KV, req: UserReq, uuid: string, enc: string -> string, rnd: string)
    requires CreatesAnyhow(s, s', req, uuid, enc, rnd)
    ensures var id, k := if req.userId == "" then uuid else req.userId, enc(if req.isAdmin then "niova-admin-secret-key" else rnd);
            && IsAt(s', UserField(id, Username), Text(req.username)) && IsAt(s', NameIdx(req.username), Text(id))
            && IsAt(s', UserField(id, UserType), Text(if req.isAdmin then "admin" else "non-admin"))
            && IsAt(s', UserField(id, UserRole), Text(if req.isAdmin then "admin" else "user"))
            && IsAt(s', UserField(id, Status), Byte(0))
            && (if k != "" then IsAt(s', UserField(id, SecretKey), Text(k)) else SameAt(s, s', UserField(id, SecretKey)))
            && forall x, f :: x != id ==> SameAt(s, s', UserField(x, f))
  {
    hide ApplyAll, UserChanges, DropSpaceLeft, DropSpaceRight, PrefixTaken, HasRows;
    TrimEmpty();
    var u := CreatedUser(req, uuid, enc, rnd);
    assert PutChanges(u, "") == UserChanges(u);
    UserChangesApply(s, u);
  }

  /** An update changes the name and, for an admin, the key, if the request has one, and nothing else. */
  lemma UpdateStores(s: KV, s': KV, req: UserReq, enc: string -> string)
    requires RecordsIndexed(s) && Updates(s, s', req, enc)
    ensures var id := req.userId;
            && TextAt(s', UserField(id, Username)) == (if req.username != "" then req.username else TextAt(s, UserField(id, Username)))
            && (if req.newSecretKey != "" && enc(req.newSecretKey) != "" then IsAt(s', UserField(id, SecretKey), Text(enc(req.newSecretKey)))
                else TextAt(s', UserField(id, SecretKey)) == TextAt(s, UserField(id, SecretKey)))
            && (TextAt(s', UserField(id, UserType)) == "admin" <==> TextAt(s, UserField(id, UserType)) == "admin")
            && TextAt(s', UserField(id, UserRole)) == TextAt(s, UserField(id, UserRole)) && StatusAt(s', id) == StatusAt(s, id)
            && forall x, f :: x != id ==> SameAt(s, s', UserField(x, f))
    ensures req.newSecretKey != "" ==> TextAt(s, UserField(req.userId, UserType)) == "admin"
  {
    hide ApplyAll, UserChanges, HasRows, RecordsIndexed, PrefixTaken, WithUser;
    var e := Decode(s, req.userId);
    var u := UpdatedUser(req, e, enc);
    RecordNamed(s, e.id);
    UpdateWrites(s, s', req, e, enc);
    UserRowsAre(s, u);
  }

  lemma UpdateWrites(s: KV, s': KV, req: UserReq, e: User, enc: string -> string)
    requires Updates(s, s', req, enc) && e == Decode(s, req.userId)
    ensures forall x, f :: SameAt(WithUser(s, UpdatedUser(req, e, enc)), s', UserField(x, f))
  {
    hide ApplyAll, UserChanges, WithUser, Decode;
    var u := UpdatedUser(req, e, enc);
    UserChangesApply(s, u);
    var gone := if Renames(req, e) then e.username else "";
    if gone != "" {
      ApplyAllAppend(s, UserChanges(u), [Del(NameIdx(gone))]);
      ApplySingle(ApplyAll(s, UserChanges(u)), Del(NameIdx(gone)));
    } else {
      assert PutChanges(u, "") == UserChanges(u);
    }
  }

  lemma UserRowsAre(s: KV, u: User)
    ensures var s' := WithUser(s, u);
            && (if u.username != "" then IsAt(s', UserField(u.id, Username), Text(u.username)) else SameAt(s, s', UserField(u.id, Username)))
            && (if u.secretKey != "" then IsAt(s', UserField(u.id, SecretKey), Text(u.secretKey)) else SameAt(s, s', UserField(u.id, SecretKey)))
            && IsAt(s', UserField(u.id, UserType), Text(if u.isAdmin then "admin" else "non-admin"))
            && (if u.role != "" then IsAt(s', UserField(u.id, UserRole), Text(u.role)) else SameAt(s, s', UserField(u.id, UserRole)))
            && IsAt(s', UserField(u.id, Status), Byte(u.status))
            && forall x, f :: x != u.id ==> SameAt(s, s', UserField(x, f))
  {
  }

  /** The bootstrap stores the admin under the nil UUID, once. */
  lemma BootstrapStores(s: KV, s': KV, key: string, enc: string -> string)
    requires Bootstraps(s, s', key, enc)
    ensures var id, k := "00000000-0000-0000-0000-000000000000", enc(if key != "" then key else "niova-admin-secret-key");
            if exists f :: UserField(id, f) in s then s' == s
            else && IsAt(s', UserField(id, Username), Text("admin")) && IsAt(s', NameIdx("admin"), Text(id))
                 && IsAt(s', UserField(id, UserType), Text("admin")) && IsAt(s', UserField(id, UserRole), Text("admin"))
                 && IsAt(s', UserField(id, Status), Byte(0))
                 && (if k != "" then IsAt(s', UserField(id, SecretKey), Text(k)) else UserField(id, SecretKey) !in s')
                 && forall x, f :: x != id ==> SameAt(s, s', UserField(x, f))
  {
    hide ApplyAll, UserChanges, WithUser;
    var u := AdminUser(key, enc);
    if Lookup(s, NIL_UUID).None? {
      UserChangesApply(s, u);
      UserRowsAre(s, u);
      AdminEntry(s, u);
    }
  }

  lemma AdminEntry(s: KV, u: User)
    requires u.username != ""
    ensures IsAt(WithUser(s, u), NameIdx(u.username), Text(u.id))
  {
  }

  // ----- runs in which no create asks for an admin -----

  /** A step of such a run; generated keys are never the default key. */
  ghost predicate PlainStep(s: KV, s': KV, enc: string -> string) {
    || s' == s
    || (exists req, uuid, rnd :: PlainCreate(s, s', req, uuid, enc, rnd))
    || (exists req :: Updates(s, s', req, enc))
    || (exists key :: Bootstraps(s, s', key, enc))
  }

  ghost predicate PlainCreate(s: KV, s': KV, req: UserReq, uuid: string, enc: string -> string, rnd: string) {
    CreatesAnyhow(s, s', req, uuid, enc, rnd) && !req.isAdmin && rnd != "niova-admin-secret-key"
  }

  ghost predicate PlainRun(ss: seq<KV>, enc: string -> string) {
    ss != [] && if |ss| == 1 then ss[0] == map[] else PlainRun(ss[..|ss|-1], enc) && PlainStep(ss[|ss|-2], ss[|ss|-1], enc)
  }

  lemma {:induction false} PlainRunIsRun(ss: seq<KV>, enc: string -> string)
    requires PlainRun(ss, enc)
    ensures AnyRun(ss, enc)
  {
    hide CreatesAnyhow, Updates, Bootstraps;
    if |ss| > 1 {
      PlainRunIsRun(ss[..|ss|-1], enc);
      PlainIsAny(ss[|ss|-2], ss[|ss|-1], enc);
    }
  }

  lemma PlainIsAny(s: KV, s': KV, enc: string -> string)
    requires PlainStep(s, s', enc)
    ensures AnyStep(s, s', enc)
  {
    hide CreatesAnyhow, Updates, Bootstraps;
    if req, uuid, rnd :| PlainCreate(s, s', req, uuid, enc, rnd) { assert CreatesAnyhow(s, s', req, uuid, enc, rnd); }
  }

  /** Nobody but the nil UUID is an admin, by flag or role, or has the default key. */
  ghost predicate OneAdmin(s: KV, enc: string -> string) {
    forall id :: id != NIL_UUID ==> Ordinary(s, id, enc)
  }

  ghost predicate Ordinary(s: KV, id: string, enc: string -> string) {
    && TextAt(s, UserField(id, UserType)) != "admin" && TextAt(s, UserField(id, UserRole)) != "admin"
    && !IsAt(s, UserField(id, SecretKey), Text(enc("niova-admin-secret-key")))
  }

  ghost predicate Injective(enc: string -> string) { forall a, b :: enc(a) == enc(b) ==> a == b }

  lemma SameStaysOrdinary(s: KV, s': KV, id: string, enc: string -> string)
    requires Ordinary(s, id, enc) && forall f :: SameAt(s, s', UserField(id, f))
    ensures Ordinary(s', id, enc)
  {
    assert SameAt(s, s', UserField(id, UserType)) && SameAt(s, s', UserField(id, UserRole)) && SameAt(s, s', UserField(id, SecretKey));
  }

  lemma CreateKeepsOneAdmin(s: KV, s': KV, req: UserReq, uuid: string, enc: string -> string, rnd: string)
    requires OneAdmin(s, enc) && PlainCreate(s, s', req, uuid, enc, rnd) && Injective(enc)
    ensures OneAdmin(s', enc)
  {
    hide CreatesAnyhow, Ordinary;
    CreateStores(s, s', req, uuid, enc, rnd);
    var id0 := if req.userId == "" then uuid else req.userId;
    forall id | id != NIL_UUID ensures Ordinary(s', id, enc) {
      assert Ordinary(s, id, enc);
      if id != id0 { SameStaysOrdinary(s, s', id, enc); } else { NewIsOrdinary(s, s', id, enc, rnd); }
    }
  }

  lemma NewIsOrdinary(s: KV, s': KV, id: string, enc: string -> string, rnd: string)
    requires Ordinary(s, id, enc) && Injective(enc) && rnd != "niova-admin-secret-key"
    requires IsAt(s', UserField(id, UserType), Text("non-admin")) && IsAt(s', UserField(id, UserRole), Text("user"))
    requires if enc(rnd) != "" then IsAt(s', UserField(id, SecretKey), Text(enc(rnd))) else SameAt(s, s', UserField(id, SecretKey))
    ensures Ordinary(s', id, enc)
  {
    assert enc(rnd) == enc("niova-admin-secret-key") ==> rnd == "niova-admin-secret-key";
  }

  lemma UpdateKeepsOneAdmin(s: KV, s': KV, req: UserReq, enc: string -> string)
    requires OneAdmin(s, enc) && RecordsIndexed(s) && Updates(s, s', req, enc) && enc("niova-admin-secret-key") != ""
    ensures OneAdmin(s', enc)
  {
    hide Updates, Ordinary, RecordsIndexed;
    UpdateStores(s, s', req, enc);
    forall id | id != NIL_UUID ensures Ordinary(s', id, enc) {
      assert Ordinary(s, id, enc);
      if id != req.userId { SameStaysOrdinary(s, s', id, enc); } else { UpdatedIsOrdinary(s, s', id, enc); }
    }
  }

  lemma UpdatedIsOrdinary(s: KV, s': KV, id: string, enc: string -> string)
    requires Ordinary(s, id, enc) && enc("niova-admin-secret-key") != ""
    requires TextAt(s', UserField(id, UserType)) == "admin" <==> TextAt(s, UserField(id, UserType)) == "admin"
    requires TextAt(s', UserField(id, UserRole)) == TextAt(s, UserField(id, UserRole))
    requires TextAt(s, UserField(id, UserType)) != "admin" ==> TextAt(s', UserField(id, SecretKey)) == TextAt(s, UserField(id, SecretKey))
    ensures Ordinary(s', id, enc)
  {
  }

  lemma BootstrapKeepsOneAdmin(s: KV, s': KV, key: string, enc: string -> string)
    requires OneAdmin(s, enc) && Bootstraps(s, s', key, enc)
    ensures OneAdmin(s', enc)
  {
    hide Bootstraps, Ordinary;
    BootstrapStores(s, s', key, enc);
    forall id | id != NIL_UUID ensures Ordinary(s', id, enc) {
      assert Ordinary(s, id, enc);
      SameStaysOrdinary(s, s', id, enc);
    }
  }

  /** After every run whose creates ask for no admin, only the nil UUID is an admin, by flag or role, and
      nobody else has the default key: renames, updates and creates under foreign ids included. */
  lemma {:induction false} OnlyNilIsAdmin(ss: seq<KV>, enc: string -> string)
    requires PlainRun(ss, enc) && Injective(enc) && enc("niova-admin-secret-key") != ""
    ensures OneAdmin(ss[|ss|-1], enc)
  {
    hide PlainCreate, Updates, Bootstraps, OneAdmin, RecordsIndexed;
    if |ss| == 1 {
      NoAccounts(enc);
    } else {
      var s, s' := ss[|ss|-2], ss[|ss|-1];
      OnlyNilIsAdmin(ss[..|ss|-1], enc);
      PlainRunIsRun(ss[..|ss|-1], enc);
      AnyRunKeepsRecords(ss[..|ss|-1], enc);
      if req, uuid, rnd :| PlainCreate(s, s', req, uuid, enc, rnd) { CreateKeepsOneAdmin(s, s', req, uuid, enc, rnd); }
      else if req :| Updates(s, s', req, enc) { UpdateKeepsOneAdmin(s, s', req, enc); }
      else if key :| Bootstraps(s, s', key, enc) { BootstrapKeepsOneAdmin(s, s', key, enc); }
    }
  }

  lemma NoAccounts(enc: string -> string)
    ensures OneAdmin(map[], enc)
  {
  }

  // ----- blank names -----

  /** White space by code point. */
  ghost predicate Blank(s: string) {
    forall c :: c in s ==>
      var n := c as int;
      9 <= n <= 13 || n == 32 || n == 0x85 || n == 0xA0 || n == 0x1680 || 0x2000 <= n <= 0x200A || n == 0x2028 || n == 0x2029
      || n == 0x202F || n == 0x205F || n == 0x3000
  }

  lemma SpaceIsBlank(c: char)
    ensures Blank([c]) <==> IsSpace(c)
  {
    assert c in [c];
  }

  lemma BlankAppend(a: string, b: string)
    ensures Blank(a + b) <==> Blank(a) && Blank(b)
  {
    if Blank(a + b) {
      forall c | c in a ensures c in a + b {}
      forall c | c in b ensures c in a + b {}
    }
  }

  lemma {:induction false} DropsLeft(s: string) returns (a: string)
    ensures s == a + DropSpaceLeft(s) && Blank(a)
    ensures DropSpaceLeft(s) != "" ==> !IsSpace(DropSpaceLeft(s)[0])
  {
    a := "";
    if s != "" && IsSpace(s[0]) {
      a := DropsLeft(s[1..]);
      SpaceIsBlank(s[0]);
      BlankAppend([s[0]], a);
      assert s == [s[0]] + s[1..];
      a := [s[0]] + a;
    }
  }

  lemma {:induction false} DropsRight(s: string) returns (b: string)
    ensures s == DropSpaceRight(s) + b && Blank(b)
    ensures DropSpaceRight(s) != "" ==> !IsSpace(DropSpaceRight(s)[|DropSpaceRight(s)|-1]) && DropSpaceRight(s)[0] == s[0]
  {
    b := "";
    if s != "" && IsSpace(s[|s|-1]) {
      b := DropsRight(s[..|s|-1]);
      SpaceIsBlank(s[|s|-1]);
      BlankAppend(b, [s[|s|-1]]);
      assert s == s[..|s|-1] + [s[|s|-1]];
      b := b + [s[|s|-1]];
    }
  }

  /** Trimming takes off white space at both ends, and as much as there is. */
  lemma Trims(s: string) returns (a: string, b: string)
    ensures s == a + TrimSpace(s) + b && Blank(a) && Blank(b)
    ensures var t := TrimSpace(s); t != "" ==> !Blank([t[0]]) && !Blank([t[|t|-1]])
  {
    hide DropSpaceLeft, DropSpaceRight, Blank, IsSpace;
    a := DropsLeft(s);
    b := DropsRight(DropSpaceLeft(s));
    var t := TrimSpace(s);
    if t != "" {
      SpaceIsBlank(t[0]);
      SpaceIsBlank(t[|t|-1]);
    }
  }

  /** There is one way to do so. */
  lemma TrimIsUnique(a: string, t: string, b: string, a': string, t': string, b': string)
    requires a + t + b == a' + t' + b' && Blank(a) && Blank(b) && Blank(a') && Blank(b') && t != "" && t' != ""
    requires !Blank([t[0]]) && !Blank([t[|t|-1]]) && !Blank([t'[0]]) && !Blank([t'[|t'|-1]])
    ensures t == t'
  {
    var s := a + t + b;
    NotBefore(a, t, b, a', t', b');
    NotBefore(a', t', b', a, t, b);
    assert t == s[|a|..|a|+|t|] && t' == s[|a'|..|a'|+|t'|];
  }

  lemma NotBefore(a: string, t: string, b: string, a': string, t': string, b': string)
    requires a + t + b == a' + t' + b' && Blank(a) && Blank(b) && t' != "" && !Blank([t'[0]]) && !Blank([t'[|t'|-1]])
    ensures |a| <= |a'| && |a'| + |t'| <= |a| + |t|
  {
    var s := a + t + b;
    assert s[|a'|] == t'[0] && s[|a'| + |t'| - 1] == t'[|t'|-1];
    if |a'| < |a| {
      assert s[|a'|] == a[|a'|] && a[|a'|] in a;
      BlankIn(a, t'[0]);
    }
    if |a'| + |t'| > |a| + |t| {
      assert s[|a'| + |t'| - 1] == b[|a'| + |t'| - 1 - |a| - |t|];
      BlankIn(b, t'[|t'|-1]);
    }
  }

  lemma BlankIn(a: string, c: char)
    requires Blank(a) && c in a
    ensures Blank([c])
  {
  }

  /** The name of a bootstrap is "admin" with white space around it, and the name of a create is not all
      white space. */
  lemma NamesAccepted(name: string)
    ensures TrimSpace(name) == "admin" <==> exists a, b :: name == a + "admin" + b && Blank(a) && Blank(b)
    ensures TrimSpace(name) == "" <==> Blank(name)
  {
    hide TrimSpace, Blank;
    var a, b := Trims(name);
    var t := TrimSpace(name);
    if t == "" {
      BlankAppend(a, b);
      assert name == a + b;
    } else {
      if Blank(name) { NotBlankInside(name, a, t, b); }
    }
    LettersAreNotBlank();
    if x, y :| name == x + "admin" + y && Blank(x) && Blank(y) {
      if t == "" { NotBlankInside(name, x, "admin", y); } else { TrimIsUnique(a, t, b, x, "admin", y); }
    }
  }

  lemma LettersAreNotBlank()
    ensures "admin"[0] == 'a' && "admin"[4] == 'n' && !Blank(['a']) && !Blank(['n'])
  {
    assert 'a' in ['a'] && 'n' in ['n'];
  }

  lemma NotBlankInside(s: string, a: string, t: string, b: string)
    requires s == a + t + b && t != "" && !Blank([t[0]])
    ensures !Blank(s)
  {
    assert s[|a|] == t[0];
    if Blank(s) { BlankIn(s, t[0]); }
  }
}
