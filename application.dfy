/** The page's state and its handlers: three object stores, the three
    in-memory copies of their contents (`produits`, `magasins`,
    `commandes`), the start-up load with its seeding, and the add, edit and
    delete actions of the product, store and order screens. */
module Application {
  import opened Records
  import opened Storage
  import opened Domain

  /** How a handler ended: it stored its change, refused an incomplete form
      (the alert), hit a storage error (the catch), was stopped by the
      store-deletion guard, was cancelled at the confirmation dialog, or did
      not find the order it was asked about. */
  datatype Outcome = Done | Invalid | Failed | Blocked | Cancelled | NotFound

  /** Every record of `m` belongs in the store `name`. */
  predicate Holds(m: map<int, Record>, name: StoreName) {
    forall k :: k in m ==> KindOf(m[k]) == name
  }

  /** No two seeds share an index key. */
  predicate NomsDistincts(seeds: seq<Record>) {
    forall i, j :: 0 <= i < j < |seeds| && NomKey(seeds[i]).Some? ==> NomKey(seeds[i]) != NomKey(seeds[j])
  }

  /** The contents of an empty store after adding `seeds` one by one, the
      key generator standing at `start`. */
  function SeedMap(seeds: seq<Record>, start: int): (m: map<int, Record>)
    ensures forall k :: k in m ==> start <= k < start + |seeds|
    ensures forall i :: 0 <= i < |seeds| ==> start + i in m && m[start + i] == WithId(seeds[i], start + i)
    ensures forall k :: k in m ==> m[k].id == k && KindOf(m[k]) == KindOf(seeds[k - start])
  {
    map k | start <= k < start + |seeds| :: SeedAt(seeds, start, k)
  }

  /** Seeding stores one record per seed: no seed overwrites another. */
  lemma {:induction false} SeedMapTaille(seeds: seq<Record>, start: int, i: int)
    requires 0 <= i <= |seeds|
    ensures |SeedMap(seeds[..i], start)| == i
    decreases i
  {
    if i > 0 {
      SeedMapTaille(seeds, start, i - 1);
      SeedMapStep(seeds, start, i - 1);
      assert start + (i - 1) !in SeedMap(seeds[..i - 1], start);
    }
  }

  /** The seed stored under key `k`. */
  function SeedAt(seeds: seq<Record>, start: int, k: int): Record
    requires start <= k < start + |seeds|
  {
    WithId(seeds[k - start], k)
  }

  lemma SeedMapStep(seeds: seq<Record>, start: int, i: int)
    requires 0 <= i < |seeds|
    ensures SeedMap(seeds[..i], start)[start + i := WithId(seeds[i], start + i)]
            == SeedMap(seeds[..i + 1], start)
  {
    var a := SeedMap(seeds[..i], start)[start + i := WithId(seeds[i], start + i)];
    var b := SeedMap(seeds[..i + 1], start);
    forall k | k in b ensures k in a && a[k] == b[k] {
      assert b[start + (k - start)] == WithId(seeds[..i + 1][k - start], k);
      if k < start + i {
        assert SeedMap(seeds[..i], start)[start + (k - start)] == WithId(seeds[..i][k - start], k);
      }
    }
    assert a.Keys == b.Keys;
  }

  /** The next seed's index key is not yet taken by the seeds before it. */
  lemma SeedNomLibre(seeds: seq<Record>, start: int, i: int)
    requires 0 <= i < |seeds| && NomsDistincts(seeds)
    ensures !NomPris(SeedMap(seeds[..i], start), seeds[i], None)
  {
    var m := SeedMap(seeds[..i], start);
    forall k | k in m ensures NomKey(m[k]) != NomKey(seeds[i]) || NomKey(seeds[i]).None? {
      var j := k - start;
      assert m[start + j] == WithId(seeds[..i][j], k);
      ChampWithId(seeds[j], k, "nom");
    }
  }

  /** The seeding loop `for (const x of init) await add(store, x)`, run on an
      empty store. */
  method Semer(store: ObjectStore, seeds: seq<Record>)
    requires store.Valid() && store.records == map[]
    requires store.name == Magasins ==> NomsDistincts(seeds)
    modifies store
    ensures store.Valid()
    ensures store.records == SeedMap(seeds, old(store.nextId))
    ensures |store.records| == |seeds|
    ensures store.nextId == old(store.nextId) + |seeds|
  {
    var start := store.nextId;
    var i := 0;
    assert seeds[..0] == [];
    while i < |seeds|
      invariant 0 <= i <= |seeds|
      invariant store.Valid()
      invariant store.records == SeedMap(seeds[..i], start)
      invariant store.nextId == start + i
    {
      if store.name == Magasins {
        SeedNomLibre(seeds, start, i);
      }
      var r := store.Add(seeds[i]);
      SeedMapStep(seeds, start, i);
      i := i + 1;
    }
    assert seeds[..i] == seeds;
    SeedMapTaille(seeds, start, i);
  }

  /** One `if (list.length === 0) { seed; list = await getAll(store) }` of
      chargerDonnees: `liste` is the store's listing, read just before. */
  method SemerSiVide(store: ObjectStore, liste: seq<Record>, seeds: seq<Record>) returns (rs: seq<Record>)
    requires store.Valid() && Lists(liste, store.records) && Holds(store.records, store.name)
    requires forall i :: 0 <= i < |seeds| ==> KindOf(seeds[i]) == store.name
    requires store.name == Magasins ==> NomsDistincts(seeds)
    modifies store
    ensures store.Valid() && Lists(rs, store.records) && Holds(store.records, store.name)
    ensures old(store.records) == map[] ==>
              store.records == SeedMap(seeds, old(store.nextId)) && store.nextId == old(store.nextId) + |seeds|
    ensures old(store.records) == map[] ==> |rs| == |seeds|
    ensures old(store.records) != map[] ==>
              store.records == old(store.records) && store.nextId == old(store.nextId) && rs == liste
  {
    rs := liste;
    if |liste| == 0 {
      assert store.records == map[];
      ghost var start := store.nextId;
      Semer(store, seeds);
      forall k | k in store.records ensures KindOf(store.records[k]) == store.name {
        assert store.records[start + (k - start)] == WithId(seeds[k - start], k);
      }
      rs := store.GetAll();
    }
  }

  /** Each seed list holds its store's kind of record, and the store seeds
      have distinct names. */
  lemma SeedsBienFormes()
    ensures forall i :: 0 <= i < |PRODUITS_INIT| ==> KindOf(PRODUITS_INIT[i]) == Produits
    ensures forall i :: 0 <= i < |MAGASINS_INIT| ==> KindOf(MAGASINS_INIT[i]) == Magasins
    ensures forall i :: 0 <= i < |COMMANDES_INIT| ==> KindOf(COMMANDES_INIT[i]) == Commandes
    ensures NomsDistincts(MAGASINS_INIT)
  {
  }

  /** `list.find(c => c.id === id)`: the first record with that key. */
  function Find(cs: seq<Record>, id: int): (r: Option<Record>)
    ensures r.Some? ==> r.value in cs && r.value.id == id
    ensures r.Some? ==> exists i :: 0 <= i < |cs| && cs[i] == r.value && forall j :: 0 <= j < i ==> cs[j].id != id
    ensures r.None? <==> forall i :: 0 <= i < |cs| ==> cs[i].id != id
  {
    if cs == [] then None
    else if cs[0].id == id then Some(cs[0])
    else
      var r := Find(cs[1..], id);
      assert r.Some? ==> exists i :: 0 <= i < |cs| && cs[i] == r.value && forall j :: 0 <= j < i ==> cs[j].id != id by {
        if r.Some? {
          var i :| 0 <= i < |cs[1..]| && cs[1..][i] == r.value && forall j :: 0 <= j < i ==> cs[1..][j].id != id;
          assert cs[i + 1] == r.value;
          assert forall j :: 0 <= j < i + 1 ==> cs[j].id != id by {
            forall j | 0 <= j < i + 1 ensures cs[j].id != id {
              if j > 0 { assert cs[j] == cs[1..][j - 1]; }
            }
          }
        }
      }
      r
  }

  /** In a listing of a store, finding a key is looking it up in the store. */
  lemma FindInListing(m: map<int, Record>, cs: seq<Record>, id: int)
    requires Lists(cs, m)
    requires forall k :: k in m ==> m[k].id == k
    ensures Find(cs, id).Some? <==> id in m
    ensures Find(cs, id).Some? ==> Find(cs, id).value == m[id]
  {
    if id in m {
      assert m[id] in cs;
    }
  }

  class App {
    const produitsDb: ObjectStore
    const magasinsDb: ObjectStore
    const commandesDb: ObjectStore
    /** The in-memory copies the screens are drawn from. */
    var produits: seq<Record>
    var magasins: seq<Record>
    var commandes: seq<Record>

    /** The three stores are distinct, well formed and hold their own kind of record. */
    ghost predicate StoresValid()
      reads this, produitsDb, magasinsDb, commandesDb
    {
      && produitsDb != magasinsDb && produitsDb != commandesDb && magasinsDb != commandesDb
      && produitsDb.name == Produits && magasinsDb.name == Magasins && commandesDb.name == Commandes
      && produitsDb.Valid() && magasinsDb.Valid() && commandesDb.Valid()
      && Holds(produitsDb.records, Produits)
      && Holds(magasinsDb.records, Magasins)
      && Holds(commandesDb.records, Commandes)
    }

    /** In addition, every in-memory copy is the current listing of its store. */
    ghost predicate Valid()
      reads this, produitsDb, magasinsDb, commandesDb
    {
      && StoresValid()
      && Lists(produits, produitsDb.records)
      && Lists(magasins, magasinsDb.records)
      && Lists(commandes, commandesDb.records)
    }

    /** The page right after the database opened: the copies are still empty. */
    constructor (produitsDb: ObjectStore, magasinsDb: ObjectStore, commandesDb: ObjectStore)
      requires produitsDb != magasinsDb && produitsDb != commandesDb && magasinsDb != commandesDb
      requires produitsDb.name == Produits && magasinsDb.name == Magasins && commandesDb.name == Commandes
      requires produitsDb.Valid() && magasinsDb.Valid() && commandesDb.Valid()
      requires Holds(produitsDb.records, Produits)
      requires Holds(magasinsDb.records, Magasins)
      requires Holds(commandesDb.records, Commandes)
      ensures StoresValid()
      ensures this.produitsDb == produitsDb && this.magasinsDb == magasinsDb && this.commandesDb == commandesDb
      ensures produits == [] && magasins == [] && commandes == []
    {
      this.produitsDb := produitsDb;
      this.magasinsDb := magasinsDb;
      this.commandesDb := commandesDb;
      produits := [];
      magasins := [];
      commandes := [];
    }

    /** chargerDonnees: load the three copies, and seed each store that is
        empty (and only those). A store that already holds records is left
        exactly as it was. */
    method ChargerDonnees() returns (ok: bool)
      requires StoresValid()
      modifies this, produitsDb, magasinsDb, commandesDb
      ensures Valid() && ok
      ensures old(produitsDb.records) == map[] ==>
                && produitsDb.records == SeedMap(PRODUITS_INIT, old(produitsDb.nextId))
                && produitsDb.nextId == old(produitsDb.nextId) + |PRODUITS_INIT|
      ensures old(produitsDb.records) != map[] ==>
                produitsDb.records == old(produitsDb.records) && produitsDb.nextId == old(produitsDb.nextId)
      ensures old(magasinsDb.records) == map[] ==>
                && magasinsDb.records == SeedMap(MAGASINS_INIT, old(magasinsDb.nextId))
                && magasinsDb.nextId == old(magasinsDb.nextId) + |MAGASINS_INIT|
      ensures old(magasinsDb.records) != map[] ==>
                magasinsDb.records == old(magasinsDb.records) && magasinsDb.nextId == old(magasinsDb.nextId)
      ensures old(commandesDb.records) == map[] ==>
                && commandesDb.records == SeedMap(COMMANDES_INIT, old(commandesDb.nextId))
                && commandesDb.nextId == old(commandesDb.nextId) + |COMMANDES_INIT|
      ensures old(commandesDb.records) != map[] ==>
                commandesDb.records == old(commandesDb.records) && commandesDb.nextId == old(commandesDb.nextId)
      ensures old(produitsDb.records) == map[] ==> |produits| == 4
      ensures old(magasinsDb.records) == map[] ==> |magasins| == 3
      ensures old(commandesDb.records) == map[] ==> |commandes| == 3
    {
      produits := produitsDb.GetAll();
      magasins := magasinsDb.GetAll();
      commandes := commandesDb.GetAll();
      SeedsBienFormes();
      produits := SemerSiVide(produitsDb, produits, PRODUITS_INIT);
      magasins := SemerSiVide(magasinsDb, magasins, MAGASINS_INIT);
      commandes := SemerSiVide(commandesDb, commandes, COMMANDES_INIT);
      ok := true;
    }

    /** ajouterProduit: a complete form adds the product, flagged as eggs
        when its name says so, under the next key. */
    method AjouterProduit(nom: string, magasin: string, prix: Parsed) returns (o: Outcome)
      requires Valid()
      modifies this, produitsDb
      ensures Valid()
      ensures o == Invalid || o == Done
      ensures o == Invalid <==> !ProduitValide(nom, magasin, prix)
      ensures o == Invalid ==>
                produitsDb.records == old(produitsDb.records) && produitsDb.nextId == old(produitsDb.nextId)
      ensures o == Done ==>
                && produitsDb.records == old(produitsDb.records)[old(produitsDb.nextId) :=
                     WithId(NouveauProduit(nom, magasin, prix.value), old(produitsDb.nextId))]
                && produitsDb.nextId == old(produitsDb.nextId) + 1
      ensures magasins == old(magasins) && commandes == old(commandes)
    {
      if nom == "" || magasin == "" || prix.NaN? {
        return Invalid;
      }
      var r := produitsDb.Add(NouveauProduit(nom, magasin, prix.value));
      produits := produitsDb.GetAll();
      return Done;
    }

    /** ajouterMagasin: a name adds the store, unless the unique index on
        `nom` already holds that name. */
    method AjouterMagasin(nom: string) returns (o: Outcome)
      requires Valid()
      modifies this, magasinsDb
      ensures Valid()
      ensures o == Invalid || o == Failed || o == Done
      ensures o == Invalid <==> nom == ""
      ensures o == Failed <==> nom != "" && exists k | k in old(magasinsDb.records) :: old(magasinsDb.records)[k].nom == nom
      ensures o != Done ==>
                magasinsDb.records == old(magasinsDb.records) && magasinsDb.nextId == old(magasinsDb.nextId)
      ensures o == Done ==>
                && magasinsDb.records == old(magasinsDb.records)[old(magasinsDb.nextId) := Magasin(old(magasinsDb.nextId), nom)]
                && magasinsDb.nextId == old(magasinsDb.nextId) + 1
      ensures produits == old(produits) && commandes == old(commandes)
    {
      if nom == "" {
        return Invalid;
      }
      ghost var m := magasinsDb.records;
      assert NomKey(Magasin(0, nom)) == Some(nom);
      assert forall k :: k in m ==> NomKey(m[k]) == Some(m[k].nom);
      var r := magasinsDb.Add(Magasin(0, nom));
      if r.Err? {
        return Failed;
      }
      magasins := magasinsDb.GetAll();
      return Done;
    }

    /** supprimerProduit: once confirmed, the product at `id` goes. */
    method SupprimerProduit(id: int, confirme: bool) returns (o: Outcome)
      requires Valid()
      modifies this, produitsDb
      ensures Valid()
      ensures o == (if confirme then Done else Cancelled)
      ensures produitsDb.records == (if confirme then old(produitsDb.records) - {id} else old(produitsDb.records))
      ensures produitsDb.nextId == old(produitsDb.nextId)
      ensures magasins == old(magasins) && commandes == old(commandes)
    {
      if !confirme {
        return Cancelled;
      }
      produitsDb.Remove(id);
      produits := produitsDb.GetAll();
      return Done;
    }

    /** supprimerMagasin: refused while the guard finds products using the
        store (it never does, see `GardeInerte`), else removed once confirmed. */
    method SupprimerMagasin(id: int, confirme: bool) returns (o: Outcome)
      requires Valid()
      modifies this, magasinsDb
      ensures Valid()
      ensures o == Blocked <==> |ProduitsUtilisantMagasin(old(produits), id)| > 0
      ensures o != Blocked ==> o == (if confirme then Done else Cancelled)
      ensures magasinsDb.records == (if o == Done then old(magasinsDb.records) - {id} else old(magasinsDb.records))
      ensures magasinsDb.nextId == old(magasinsDb.nextId)
      ensures produits == old(produits) && commandes == old(commandes)
    {
      var utilisant := ProduitsUtilisantMagasin(produits, id);
      if |utilisant| > 0 {
        return Blocked;
      }
      if !confirme {
        return Cancelled;
      }
      magasinsDb.Remove(id);
      magasins := magasinsDb.GetAll();
      return Done;
    }

    /** changerStatutPaiement: the order's status is replaced and nothing
        else of it; an unknown key does nothing. */
    method ChangerStatutPaiement(id: int, statut: string) returns (o: Outcome)
      requires Valid()
      modifies this, commandesDb
      ensures Valid()
      ensures o == NotFound || o == Done
      ensures o == NotFound <==> id !in old(commandesDb.records)
      ensures o == NotFound ==> commandesDb.records == old(commandesDb.records)
      ensures o == Done ==>
                commandesDb.records == old(commandesDb.records)[id := old(commandesDb.records)[id].(paiement := statut)]
      ensures commandesDb.nextId == old(commandesDb.nextId)
      ensures produits == old(produits) && magasins == old(magasins)
    {
      FindInListing(commandesDb.records, commandes, id);
      var commande := Find(commandes, id);
      if commande.None? {
        return NotFound;
      }
      var r := commandesDb.Update(id, commande.value.(paiement := statut));
      commandes := commandesDb.GetAll();
      return Done;
    }

    /** ajouterCommande: a form passing its check adds the order under the
        next key, with the deposit kept only under "acompte". */
    method AjouterCommande(f: FormulaireCommande) returns (o: Outcome)
      requires Valid()
      modifies this, commandesDb
      ensures Valid()
      ensures o == Invalid || o == Done
      ensures o == Invalid <==> !ValideAjout(f)
      ensures o == Invalid ==>
                commandesDb.records == old(commandesDb.records) && commandesDb.nextId == old(commandesDb.nextId)
      ensures o == Done ==>
                && commandesDb.records == old(commandesDb.records)[old(commandesDb.nextId) :=
                     WithId(ConstruireCommande(f), old(commandesDb.nextId))]
                && commandesDb.nextId == old(commandesDb.nextId) + 1
      ensures produits == old(produits) && magasins == old(magasins)
    {
      if f.date.None? || f.description == "" || f.nom == "" || f.prenom == ""
         || f.telephone == "" || FalsyInt(f.parts) {
        return Invalid;
      }
      var r := commandesDb.Add(ConstruireCommande(f));
      commandes := commandesDb.GetAll();
      return Done;
    }

    /** editerCommande: the form filled in from the order at `id`, or
        nothing when there is none. */
    method EditerCommande(id: int) returns (f: Option<FormulaireCommande>)
      requires Valid()
      ensures f.None? <==> id !in commandesDb.records
      ensures f.Some? ==> commandesDb.records[id].Commande? && f.value == FormulaireDe(commandesDb.records[id])
    {
      FindInListing(commandesDb.records, commandes, id);
      var commande := Find(commandes, id);
      if commande.None? {
        return None;
      }
      assert KindOf(commandesDb.records[id]) == Commandes;
      return Some(FormulaireDe(commande.value));
    }

    /** The save action editerCommande installs for `id`: a form passing the
        edit check is put at `id`, recreating the order if it has gone in
        the meantime. */
    method EnregistrerEdition(id: int, f: FormulaireCommande) returns (o: Outcome)
      requires Valid()
      modifies this, commandesDb
      ensures Valid()
      ensures o == Invalid || o == Done
      ensures o == Invalid <==> !ValideEdition(f)
      ensures o == Invalid ==>
                commandesDb.records == old(commandesDb.records) && commandesDb.nextId == old(commandesDb.nextId)
      ensures o == Done ==>
                && commandesDb.records == old(commandesDb.records)[id := WithId(ConstruireCommande(f), id)]
                && commandesDb.nextId == if id >= old(commandesDb.nextId) then id + 1 else old(commandesDb.nextId)
      ensures produits == old(produits) && magasins == old(magasins)
    {
      if f.date.None? || f.description == "" || f.nom == "" || f.prenom == ""
         || f.telephone == "" || f.prix.NaN? || f.paiement == "" {
        return Invalid;
      }
      var r := commandesDb.Update(id, ConstruireCommande(f));
      commandes := commandesDb.GetAll();
      return Done;
    }

    /** A click on the save button of the edit form. The button still
        carries the `ajouterCommande` listener installed at start-up, which
        runs first, then the save action editerCommande installed: the form
        is added as a new order when it passes the add check, and then put
        at `id` when it passes the edit check. */
    method ModifierCommande(id: int, f: FormulaireCommande) returns (ajout: Outcome, edition: Outcome)
      requires Valid()
      modifies this, commandesDb
      ensures Valid()
      ensures ajout == Invalid <==> !ValideAjout(f)
      ensures edition == Invalid <==> !ValideEdition(f)
      ensures var n := old(commandesDb.nextId);
              var m := if ValideAjout(f) then old(commandesDb.records)[n := WithId(ConstruireCommande(f), n)]
                       else old(commandesDb.records);
              commandesDb.records == if ValideEdition(f) then m[id := WithId(ConstruireCommande(f), id)] else m
      ensures var n := if ValideAjout(f) then old(commandesDb.nextId) + 1 else old(commandesDb.nextId);
              commandesDb.nextId == if ValideEdition(f) && id >= n then id + 1 else n
      ensures ValideAjout(f) && id in old(commandesDb.records) ==>
                && old(commandesDb.nextId) != id
                && commandesDb.records[old(commandesDb.nextId)] == WithId(ConstruireCommande(f), old(commandesDb.nextId))
                && |commandesDb.records| == |old(commandesDb.records)| + 1
      ensures produits == old(produits) && magasins == old(magasins)
    {
      ajout := AjouterCommande(f);
      edition := EnregistrerEdition(id, f);
    }

    /** supprimerCommande: once confirmed, the order at `id` goes. */
    method SupprimerCommande(id: int, confirme: bool) returns (o: Outcome)
      requires Valid()
      modifies this, commandesDb
      ensures Valid()
      ensures o == (if confirme then Done else Cancelled)
      ensures commandesDb.records == (if confirme then old(commandesDb.records) - {id} else old(commandesDb.records))
      ensures commandesDb.nextId == old(commandesDb.nextId)
      ensures produits == old(produits) && magasins == old(magasins)
    {
      if !confirme {
        return Cancelled;
      }
      commandesDb.Remove(id);
      commandes := commandesDb.GetAll();
      return Done;
    }
  }
}
