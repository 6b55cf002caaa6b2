/** The generic CRUD layer over one object store: `getAll`, `add`, `update`
    (put) and `remove`, on an in-memory map from auto-incremented keys to
    records. */
module Storage {
  import opened Records

  /** The one storage failure the model has: a unique-index violation. */
  datatype StoreError = ConstraintError

  datatype Result<T> = Ok(value: T) | Err(error: StoreError)

  /** The key of a record under the magasins store's unique index on the key
      path `nom`. A record without a string `nom` is not indexed. */
  function NomKey(r: Record): Option<string> {
    match Champ(r, "nom")
    case Some(JsString(s)) => Some(s)
    case _ => None
  }

  /** A shop is indexed under its name. */
  lemma NomKeyMagasin(r: Record)
    requires r.Magasin?
    ensures NomKey(r) == Some(r.nom)
  {
  }

  /** No two records under different keys share an index key. */
  ghost predicate NomsUniques(m: map<int, Record>) {
    forall j, k :: j in m && k in m && j != k && NomKey(m[j]).Some? ==> NomKey(m[j]) != NomKey(m[k])
  }

  /** Storing `r` under any key other than `except` would break the unique index. */
  predicate NomPris(m: map<int, Record>, r: Record, except: Option<int>) {
    NomKey(r).Some? && exists k | k in m :: Some(k) != except && NomKey(m[k]) == NomKey(r)
  }

  predicate Increasing(s: seq<int>) {
    forall i, j :: 0 <= i < j < |s| ==> s[i] < s[j]
  }

  lemma Pick<T>(s: set<T>) returns (x: T)
    requires s != {}
    ensures x in s
  {
    x :| x in s;
  }

  /** Every non-empty finite set of keys has a least element. */
  lemma {:induction false} MinExists(ks: set<int>)
    requires ks != {}
    ensures exists k :: k in ks && forall j :: j in ks ==> k <= j
  {
    var x := Pick(ks);
    var rest := ks - {x};
    if rest == {} {
      forall j | j in ks ensures x <= j {
        assert j == x || j in rest;
      }
    } else {
      MinExists(rest);
      var m :| m in rest && forall j :: j in rest ==> m <= j;
      var least := if x < m then x else m;
      forall j | j in ks ensures least <= j {
        assert j == x || j in rest;
      }
      assert least in ks;
    }
  }

  /** The keys of a store in the order IndexedDB enumerates them: ascending. */
  function SortedKeys(ks: set<int>): (r: seq<int>)
    ensures |r| == |ks|
    ensures Increasing(r)
    ensures forall k :: k in r <==> k in ks
    decreases |ks|
  {
    if ks == {} then []
    else
      MinExists(ks);
      var k :| k in ks && forall j :: j in ks ==> k <= j;
      var rest := SortedKeys(ks - {k});
      IncreasingCons(k, rest);
      [k] + rest
  }

  lemma IncreasingCons(k: int, rest: seq<int>)
    requires Increasing(rest) && forall j :: j in rest ==> k < j
    ensures Increasing([k] + rest)
  {
    var r := [k] + rest;
    forall i, j | 0 <= i < j < |r| ensures r[i] < r[j] {
      assert r[j] == rest[j - 1];
      if i > 0 {
        assert r[i] == rest[i - 1];
      } else {
        assert rest[j - 1] in rest;
      }
    }
  }

  /** The records stored under `ks`, in the order of `ks`. */
  function Lookup(m: map<int, Record>, ks: seq<int>): seq<Record>
    requires forall i :: 0 <= i < |ks| ==> ks[i] in m
  {
    seq(|ks|, i requires 0 <= i < |ks| => m[ks[i]])
  }

  /** `rs` lists the records of `m`, each exactly once, by ascending key. */
  predicate Lists(rs: seq<Record>, m: map<int, Record>) {
    && |rs| == |m|
    && (forall i, j :: 0 <= i < j < |rs| ==> rs[i].id < rs[j].id)
    && (forall i :: 0 <= i < |rs| ==> rs[i].id in m && m[rs[i].id] == rs[i])
    && (forall k :: k in m ==> m[k] in rs)
  }

  lemma HeadIn<T>(s: seq<T>)
    ensures s != [] ==> s[0] in s
  {
  }

  /** Two strictly increasing key sequences holding the same keys are equal. */
  lemma {:induction false} IncreasingUnique(a: seq<int>, b: seq<int>)
    requires Increasing(a) && Increasing(b)
    requires forall x :: x in a <==> x in b
    ensures a == b
    decreases |a|
  {
    if a == [] {
      HeadIn(b);
    } else {
      assert a[0] in a;
      assert a[0] in b;
      assert b != [];
      assert b[0] in a;
      assert a[0] == b[0] by {
        var i :| 0 <= i < |b| && b[i] == a[0];
        var j :| 0 <= j < |a| && a[j] == b[0];
        assert b[0] <= a[0] && a[0] <= b[0];
      }
      forall x ensures x in a[1..] <==> x in b[1..] {
        if x in a[1..] {
          var i :| 1 <= i < |a| && a[i] == x;
          assert x in b && x != b[0];
          var j :| 0 <= j < |b| && b[j] == x;
          assert b[1..][j - 1] == x;
        }
        if x in b[1..] {
          var j :| 1 <= j < |b| && b[j] == x;
          assert x in a && x != a[0];
          var i :| 0 <= i < |a| && a[i] == x;
          assert a[1..][i - 1] == x;
        }
      }
      IncreasingUnique(a[1..], b[1..]);
      assert a == [a[0]] + a[1..] && b == [b[0]] + b[1..];
    }
  }

  /** The keys of a sequence of records, in its order. */
  function Ids(rs: seq<Record>): seq<int> {
    seq(|rs|, i requires 0 <= i < |rs| => rs[i].id)
  }

  /** A store has exactly one listing: whatever `getAll` returns is
      determined by the stored records. */
  lemma ListsUnique(rs: seq<Record>, ss: seq<Record>, m: map<int, Record>)
    requires forall k :: k in m ==> m[k].id == k
    requires Lists(rs, m) && Lists(ss, m)
    ensures rs == ss
  {
    var a, b := Ids(rs), Ids(ss);
    forall x ensures x in a <==> x in b {
      if x in a {
        var i :| 0 <= i < |a| && a[i] == x;
        assert m[x] in ss;
        var j :| 0 <= j < |ss| && ss[j] == m[x];
        assert b[j] == x;
      }
      if x in b {
        var j :| 0 <= j < |b| && b[j] == x;
        assert m[x] in rs;
        var i :| 0 <= i < |rs| && rs[i] == m[x];
        assert a[i] == x;
      }
    }
    IncreasingUnique(a, b);
    forall i | 0 <= i < |rs| ensures rs[i] == ss[i] {
      assert a[i] == b[i];
    }
  }

  /** A listing enumerates the store's keys in the order IndexedDB does:
      ascending. */
  lemma ListingIds(rs: seq<Record>, m: map<int, Record>)
    requires forall k :: k in m ==> m[k].id == k
    requires Lists(rs, m)
    ensures Ids(rs) == SortedKeys(m.Keys)
  {
    ListingKeys(rs, m);
    IncreasingUnique(Ids(rs), SortedKeys(m.Keys));
  }

  lemma ListingKeys(rs: seq<Record>, m: map<int, Record>)
    requires forall k :: k in m ==> m[k].id == k
    requires Lists(rs, m)
    ensures Increasing(Ids(rs))
    ensures forall x :: x in Ids(rs) <==> x in m
  {
    var a := Ids(rs);
    forall i, j | 0 <= i < j < |a| ensures a[i] < a[j] {
      assert a[i] == rs[i].id && a[j] == rs[j].id;
    }
    forall x | x in a ensures x in m {
      var i :| 0 <= i < |a| && a[i] == x;
      assert rs[i].id in m;
    }
    forall x | x in m ensures x in a {
      var i :| 0 <= i < |rs| && rs[i] == m[x];
      assert a[i] == x;
    }
  }

  lemma ListingFacts(m: map<int, Record>, ks: seq<int>, rs: seq<Record>)
    requires forall k :: k in m ==> m[k].id == k
    requires Increasing(ks) && |ks| == |m| && forall k :: k in ks <==> k in m
    requires |rs| == |ks| && forall i :: 0 <= i < |ks| ==> ks[i] in m && rs[i] == m[ks[i]]
    ensures Lists(rs, m)
  {
    forall i | 0 <= i < |rs| ensures rs[i].id == ks[i] {
      assert ks[i] in ks;
    }
    forall k | k in m ensures m[k] in rs {
      var i :| 0 <= i < |ks| && ks[i] == k;
      assert rs[i] == m[k];
    }
  }

  /** One object store, created with `keyPath: 'id'` and `autoIncrement: true`. */
  class ObjectStore {
    const name: StoreName
    var records: map<int, Record>
    /** The key generator's current number: the key the next `add` receives. */
    var nextId: int

    ghost predicate Valid()
      reads this
    {
      && 1 <= nextId
      && (forall k :: k in records ==> k < nextId && records[k].id == k)
      && (name == Magasins ==> NomsUniques(records))
    }

    /** A freshly created, empty store. */
    constructor (name: StoreName)
      ensures Valid() && this.name == name
      ensures records == map[] && nextId == 1
    {
      this.name := name;
      records := map[];
      nextId := 1;
    }

    /** `getAll`: every stored record exactly once, by ascending key. */
    method GetAll() returns (rs: seq<Record>)
      requires Valid()
      ensures Lists(rs, records)
    {
      var ks := SortedKeys(records.Keys);
      rs := Lookup(records, ks);
      ListingFacts(records, ks, rs);
    }

    /** `add`: the record is stored under a fresh generated key, which it
        also receives as its `id`; a unique-index violation stores nothing. */
    method Add(data: Record) returns (r: Result<int>)
      requires Valid()
      modifies this
      ensures Valid()
      ensures r.Err? <==> name == Magasins && NomPris(old(records), data, None)
      ensures r.Err? ==> records == old(records) && nextId == old(nextId)
      ensures r.Ok? ==>
                && r.value == old(nextId) && r.value !in old(records)
                && records == old(records)[r.value := WithId(data, r.value)]
                && nextId == old(nextId) + 1
    {
      if name == Magasins && NomPris(records, data, None) {
        return Err(ConstraintError);
      }
      var key := nextId;
      ChampWithId(data, key, "nom");
      records := records[key := WithId(data, key)];
      nextId := nextId + 1;
      return Ok(key);
    }

    /** `update`: a put of `{...data, id}`. It replaces or creates the record
        at `id`; a numeric key at or above the generator's number moves the
        generator past it. */
    method Update(id: int, data: Record) returns (r: Result<()>)
      requires Valid()
      modifies this
      ensures Valid()
      ensures r.Err? <==> name == Magasins && NomPris(old(records), data, Some(id))
      ensures r.Err? ==> records == old(records) && nextId == old(nextId)
      ensures r.Ok? ==>
                && records == old(records)[id := WithId(data, id)]
                && nextId == if id >= old(nextId) then id + 1 else old(nextId)
    {
      if name == Magasins && NomPris(records, data, Some(id)) {
        return Err(ConstraintError);
      }
      ChampWithId(data, id, "nom");
      records := records[id := WithId(data, id)];
      if id >= nextId {
        nextId := id + 1;
      }
      return Ok(());
    }

    /** `remove`: only the record at `id` goes, if there is one; keys are
        never handed out again. */
    method Remove(id: int)
      requires Valid()
      modifies this
      ensures Valid()
      ensures records == old(records) - {id} && nextId == old(nextId)
    {
      records := records - {id};
    }
  }
}
