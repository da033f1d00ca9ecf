/** Grouping the rows of a range read into entities
    (controlplane/ctlplanefuncs/server/parser.go, lines 71-94). */
module Parsing {
  import opened Text

  type Rows = map<string, string>

  predicate Belongs(root: string, idIdx: nat, k: string) {
    |Parts(k)| > idIdx && Parts(k)[0] == root
  }

  predicate About(root: string, idIdx: nat, id: string, k: string) {
    Belongs(root, idIdx, k) && Parts(k)[idIdx] == id
  }

  /** The keys of ks that an entity is read from. */
  ghost function KeysAbout(ks: set<string>, root: string, idIdx: nat, id: string): set<string> {
    set k | k in ks && About(root, idIdx, id, k)
  }

  lemma KeysAboutStep(ks: set<string>, root: string, idIdx: nat, id: string, k: string)
    ensures KeysAbout(ks + {k}, root, idIdx, id) == KeysAbout(ks, root, idIdx, id) + if About(root, idIdx, id, k) then {k} else {}
  {
  }

  /** One parser step takes an entity that shows the rows done to one that shows k as well. */
  ghost predicate Shown<E(!new)>(rows: Rows, root: string, idIdx: nat, parseField: (E, seq<string>, string) -> E,
                                 shows: (set<string>, string, E) -> bool, done: set<string>, id: string, e: E, k: string)
  {
    k in rows && k !in done && About(root, idIdx, id, k) && shows(done, id, e) ==>
      shows(done + {k}, id, parseField(e, Parts(k), rows[k]))
  }

  /** There is an entity for exactly the ids that some key of done is about, and it shows these keys. */
  ghost predicate Grouped<E(!new)>(root: string, idIdx: nat, shows: (set<string>, string, E) -> bool, done: set<string>,
                                   ents: map<string, E>)
  {
    forall id :: GroupedAt(root, idIdx, shows, done, ents, id)
  }

  ghost predicate GroupedAt<E(!new)>(root: string, idIdx: nat, shows: (set<string>, string, E) -> bool, done: set<string>,
                                     ents: map<string, E>, id: string)
  {
    var ks := KeysAbout(done, root, idIdx, id);
    (id in ents <==> ks != {}) && (id in ents ==> shows(ks, id, ents[id]))
  }

  lemma GroupStep<E(!new)>(rows: Rows, root: string, idIdx: nat, newEntity: string -> E, parseField: (E, seq<string>, string) -> E,
                           shows: (set<string>, string, E) -> bool, done: set<string>, ents: map<string, E>, k: string)
    requires forall id :: shows({}, id, newEntity(id))
    requires forall done, id, e, k :: Shown(rows, root, idIdx, parseField, shows, done, id, e, k)
    requires Grouped(root, idIdx, shows, done, ents) && k in rows && k !in done && Belongs(root, idIdx, k)
    ensures var id := Parts(k)[idIdx];
            var e := if id in ents then ents[id] else newEntity(id);
            Grouped(root, idIdx, shows, done + {k}, ents[id := parseField(e, Parts(k), rows[k])])
  {
    hide Parts;
    var id := Parts(k)[idIdx];
    var e := if id in ents then ents[id] else newEntity(id);
    var ks := KeysAbout(done, root, idIdx, id);
    assert GroupedAt(root, idIdx, shows, done, ents, id);
    assert shows(ks, id, e);
    assert Shown(rows, root, idIdx, parseField, shows, ks, id, e, k);
    var ents' := ents[id := parseField(e, Parts(k), rows[k])];
    forall x ensures GroupedAt(root, idIdx, shows, done + {k}, ents', x) {
      KeysAboutStep(done, root, idIdx, x, k);
      assert GroupedAt(root, idIdx, shows, done, ents, x);
      if x == id {
        assert KeysAbout(done + {k}, root, idIdx, x) == ks + {k};
        assert k in ks + {k};
      } else {
        assert KeysAbout(done + {k}, root, idIdx, x) == KeysAbout(done, root, idIdx, x);
      }
    }
  }

  lemma GroupSkip<E(!new)>(root: string, idIdx: nat, shows: (set<string>, string, E) -> bool, done: set<string>, ents: map<string, E>, k: string)
    requires Grouped(root, idIdx, shows, done, ents) && !Belongs(root, idIdx, k)
    ensures Grouped(root, idIdx, shows, done + {k}, ents)
  {
    forall x ensures GroupedAt(root, idIdx, shows, done + {k}, ents, x) {
      KeysAboutStep(done, root, idIdx, x, k);
      assert KeysAbout(done + {k}, root, idIdx, x) == KeysAbout(done, root, idIdx, x);
      assert GroupedAt(root, idIdx, shows, done, ents, x);
    }
  }

  /** ParseEntities, with its map iteration in any order. Whatever a parser shows of the rows it has
      seen, the entity of every id shows of all rows about it. */
  method ParseEntities<E(!new)>(rows: Rows, root: string, idIdx: nat, newEntity: string -> E,
                                parseField: (E, seq<string>, string) -> E, ghost shows: (set<string>, string, E) -> bool)
    returns (ents: map<string, E>)
    requires forall id :: shows({}, id, newEntity(id))
    requires forall done, id, e, k :: Shown(rows, root, idIdx, parseField, shows, done, id, e, k)
    ensures Grouped(root, idIdx, shows, rows.Keys, ents)
  {
    hide Parts, Grouped, Shown;
    NothingGrouped(root, idIdx, shows);
    ents := map[];
    var todo := rows.Keys;
    ghost var done: set<string> := {};
    while todo != {}
      invariant todo <= rows.Keys && done == rows.Keys - todo
      invariant Grouped(root, idIdx, shows, done, ents)
      decreases |todo|
    {
      var k :| k in todo;
      if Belongs(root, idIdx, k) {
        GroupStep(rows, root, idIdx, newEntity, parseField, shows, done, ents, k);
        var id := Parts(k)[idIdx];
        var e := if id in ents then ents[id] else newEntity(id);
        ents := ents[id := parseField(e, Parts(k), rows[k])];
      } else {
        GroupSkip(root, idIdx, shows, done, ents, k);
      }
      done, todo := done + {k}, todo - {k};
    }
    assert done == rows.Keys;
  }

  lemma NothingGrouped<E(!new)>(root: string, idIdx: nat, shows: (set<string>, string, E) -> bool)
    ensures Grouped(root, idIdx, shows, {}, map[])
  {
  }

  lemma GroupedOne<E(!new)>(root: string, idIdx: nat, shows: (set<string>, string, E) -> bool, done: set<string>,
                            ents: map<string, E>, id: string)
    requires Grouped(root, idIdx, shows, done, ents)
    ensures id in ents <==> KeysAbout(done, root, idIdx, id) != {}
    ensures id in ents ==> shows(KeysAbout(done, root, idIdx, id), id, ents[id])
  {
    assert GroupedAt(root, idIdx, shows, done, ents, id);
  }
}
