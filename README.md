# Bakery manager: a verified model of its data core

The application is a single-page tool for a home bakery. It records raw
materials (`produits`: a product name, the shop it comes from, a price),
shops (`magasins`) and cake orders (`commandes`). It keeps each of these in
an IndexedDB object store whose keys are generated automatically. It then
shows a date-sorted order table, the revenue of every month of 2025, the
orders of the current month (September 2025) and those of the other months.
It also has a recipe-cost simulator.

This Dafny project models the part of `docs/script.js` that decides what gets
stored and what gets computed:

- `records.dfy`: the stored records as one datatype and the bits of
  JavaScript value semantics the code relies on. These are NaN-absorbing
  arithmetic, truthiness of numbers, property lookup returning `undefined`,
  and `getMonth()`.
- `storage.dfy`: an object store with `keyPath: 'id'` and `autoIncrement`.
  It has a map from keys to records, the key generator, and the unique index
  on `nom` of the `magasins` store. The four wrappers `getAll`, `add`,
  `update` (a put of `{...data, id}`) and `remove` are methods on it.
- `domain.dfy`: the rules pulled out of the handlers.
  - The egg test on a product name.
  - The checks of the product form and of the two order forms.
  - The order record built by both order handlers, with its deposit rule.
  - The form prefill of `editerCommande`.
  - The seed data.
  - The store-deletion guard.
- `aggregation.dfy`:
  - the latest-first sort of the order table;
  - the 2025 monthly revenue loop, accumulating into a dictionary;
  - the current-month and other-months filters.
- `recipe.dfy`: the total of the recipe simulator.
- `application.dfy`: the page state. It holds the three stores and the three
  in-memory arrays that every handler reloads after a change, the start-up
  load with its seeding, and every add, edit and delete handler.

Prices are exact reals with a separate NaN value. Dates are the
`(year, month, day)` written in the `"YYYY-MM-DD"` text. Where the browser is
involved, its input is a parameter:
- the confirmation dialog's answer is a boolean;
- a form is its already-parsed field values;
- a simulator line is the chosen product's price and egg flag, plus the
  quantity. The `data-prix` and `data-isoeuf` attributes written into each
  option (docs/script.js line 774) and read back (lines 826-827) are taken to
  give back the product's price and egg flag unchanged
  (`Recipe.ChoixProduit`).

Behaviour of the code that the model keeps:
- There are four seed products (butter, flour, icing sugar, eggs).
- `ajouterCommande` accepts any non-zero, non-NaN number of parts, negative
  ones included: it checks `!parts`, not positivity.
- The store-deletion guard compares `p.magasinId`, a property no product
  has. It never refuses a deletion, and the model keeps that behaviour
  (`Domain.GardeInerte`).
- Seed records take their keys from the key generator as it stands, which
  is `1..n` only in a fresh database.

## Model

| member | source | states |
|---|---|---|
| Records.Date.MonthIndex | docs/script.js:600-601 | `getMonth()` is the written month minus one, always in 0..11 |
| Records.WithId | docs/script.js:82 | `{...r, id: k}` has key `k` and belongs in the same store as `r` |
| Records.ChampWithId | docs/script.js:82 | spreading a record and replacing `id` leaves every other property as it was |
| Storage.NomKey | docs/script.js:42 | the key of the unique index `nom`: a record's string property `nom`, none otherwise; a shop is indexed under its name (`NomKeyMagasin`) |
| Storage.NomKeyMagasin | docs/script.js:42 | a shop record is indexed under its name |
| Storage.NomPris | docs/script.js:42 | the unique index refuses a record exactly when another key already holds its `nom`; it decides the failure of `ObjectStore.Add` and `ObjectStore.Update` |
| Storage.SortedKeys | docs/script.js:60 | the keys of a store enumerated strictly ascending, each key exactly once |
| Storage.ListingIds | docs/script.js:56-65 | the keys of any listing of a store, in order, are its keys by ascending value, the order IndexedDB enumerates them in |
| Storage.IncreasingUnique | docs/script.js:60 | two strictly ascending key sequences with the same keys are the same sequence |
| Storage.ListsUnique | docs/script.js:56-65 | a store has exactly one listing by ascending key, so what `getAll` returns is fixed by the stored records |
| Storage.ObjectStore.constructor | docs/script.js:34-47 | a new store is empty and its key generator starts at 1 |
| Storage.ObjectStore.GetAll | docs/script.js:56-65 | returns every stored record exactly once, by strictly ascending key, and nothing else |
| Storage.ObjectStore.Add | docs/script.js:67-76 | fails exactly when the store is `magasins` and the name is already in the unique `nom` index (docs/script.js line 42), and then changes nothing; otherwise stores the record under the generator's key, which was unused, keeps every other record and advances the generator by one |
| Storage.ObjectStore.Update | docs/script.js:78-87 | fails exactly on a name held by another key in the unique `nom` index of `magasins`; otherwise the record at `id` becomes `{...data, id}` (created if absent), no other key changes, and a key at or past the generator moves the generator past it |
| Storage.ObjectStore.Remove | docs/script.js:89-98 | only key `id` disappears; the generator does not move back |
| Domain.EstOeuf | docs/script.js:257 | the egg test of `ajouterProduit`: the lower-cased name contains "œuf" or "oeuf" (`includes` as an occurrence at some offset, `IncludesAtOffset`); accepts and rejects the names shown by `EstOeufExemples` and `PasOeufExemples` |
| Domain.LowerIdempotent | docs/script.js:257 | `toLowerCase` applied twice gives what it gives once |
| Domain.EstOeufSansCasse | docs/script.js:257 | the egg test gives the same answer on a name and on its lower-cased form |
| Domain.IncludesAtOffset | docs/script.js:257 | `includes(t)` holds exactly when `t` occurs at some offset |
| Domain.EstOeufExemples | docs/script.js:257 | "Œufs bio", "OEUFS" and "Œufs" are recognised as eggs |
| Domain.PasOeufExemples | docs/script.js:257 | "Farine", "Beurre" and "Sucre glace" are not eggs |
| Domain.SeedOeufsCoherents | docs/script.js:109-114 | the seed products' explicit egg flag agrees with the name rule `ajouterProduit` applies |
| Domain.ProduitValide | docs/script.js:245 | the product form is accepted exactly with a name, a shop and a price that parsed; `App.AjouterProduit` refuses exactly the other forms |
| Domain.NouveauProduit | docs/script.js:250-259 | the record handed to `add`: name, shop and price copied, `isOeuf` set exactly when `EstOeuf` holds (`UniteNouveauProduit`) |
| Domain.ValideAjout | docs/script.js:467 | the add-order check: date, description, names and phone filled, parts neither NaN nor 0; price and status unchecked (`ValidationsDifferent`) |
| Domain.ValideEdition | docs/script.js:537 | the edit-save check: date, description, names and phone filled, a price that parsed and a status; parts unchecked (`ValidationsDifferent`) |
| Domain.ConstruireCommande | docs/script.js:472-484 | the order both handlers store (lines 472-484 and 543-555 build the same object): every field copied, the deposit kept only under "acompte" (`ConstruireCommandeAcompte`) |
| Domain.FormulaireDe | docs/script.js:505-516 | the prefill of `editerCommande`: every field copied, a falsy deposit shown as 0; saved unchanged it rebuilds the order (`EditionSansChangement`) |
| Domain.PrefillPasseAjout | docs/script.js:505-516 | the prefilled form passes the add-order check exactly when the order's mandatory fields are filled and its parts are a non-zero number, as for every seed order |
| Domain.ConstruireCommandeAcompte | docs/script.js:543-555 | the order built from a form copies every field; its deposit is the entered one under "acompte" and 0 under any other status |
| Domain.ValidationsDifferent | docs/script.js:537 | the add check (line 467) and the edit check (line 537) disagree: an unparsed price passes only the first, missing or zero parts pass only the second |
| Domain.AcompteExemple | docs/script.js:482 | 12.50 entered with "acompte" is stored; the same amount with "payé" stores 0 |
| Domain.EditionSansChangement | docs/script.js:505-555 | opening a complete, consistent order for editing and saving it unchanged passes the edit check and stores exactly the same order |
| Domain.ChangementStatutGardeAcompte | docs/script.js:438-441 | moving the seed deposit order to "payé" keeps its deposit of 15, a state the forms never produce |
| Domain.SeedAcomptesCoherents | docs/script.js:136-175 | the seed orders carry a deposit only under "acompte" |
| Domain.ProduitsUtilisantMagasin | docs/script.js:313 | the guard's filter keeps exactly the products whose `magasinId` equals the store key |
| Domain.AucunMagasinId | docs/script.js:250-259 | no stored record has a `magasinId` property |
| Domain.GardeInerte | docs/script.js:313-318 | the guard's filter is empty for every product list and store key, so it never blocks a deletion |
| Aggregation.Filter | docs/script.js:639-642 | `filter` keeps exactly the elements satisfying the predicate, each as many times as it occurs in the list |
| Aggregation.FilterConcat | docs/script.js:639-642 | `filter` keeps the order of the list: filtering a concatenation concatenates the filtered parts |
| Aggregation.FilterSplit | docs/script.js:639-642 | filtering by two disjoint predicates splits, with multiplicities, what their union keeps |
| Aggregation.EstMoisCours | docs/script.js:639-642 | the current-month filter: an order of September 2025; its list is characterised in `PartitionAnnee` |
| Aggregation.EstAutreMois | docs/script.js:694-697 | the other-months filter: an order of 2025 outside September; its list is characterised in `PartitionAnnee` |
| Aggregation.PartitionAnnee | docs/script.js:636-642 | every 2025 order appears in exactly one of the two lists (September or another month), as many times as in the loaded orders; no order of another year appears in either |
| Aggregation.Inserer | docs/script.js:339 | inserting into a latest-first list keeps it latest-first and adds exactly that order |
| Aggregation.TrierParDate | docs/script.js:339 | the order table is latest-first and is a permutation of the orders |
| Aggregation.Cumul | docs/script.js:604-608 | one step of the monthly accumulation: a falsy total (absent, 0 or NaN) restarts from 0, then the price is added (`RemiseAZero`) |
| Aggregation.RevenuMois | docs/script.js:599-610 | `revenusParMois[m]` after the forEach over the orders; the plain month sum when prices are numbers (`RevenuSansNaN`), 0 for a month without orders (`MoisVide`), and the twelve months conserve the year's total (`Conservation`) |
| Aggregation.Affiche | docs/script.js:614 | the display default of each month: a falsy amount (absent, 0 or NaN) is shown as 0, any other amount as itself (`MoisVide`, `RemiseAZero`) |
| Aggregation.StatsMensuelles | docs/script.js:599-614 | the twelve amounts shown are, month by month, what the `revenusParMois` accumulation leaves, a falsy (0 or NaN) total shown as 0 |
| Aggregation.RevenuSansNaN | docs/script.js:599-610 | when every 2025 price is a number, a month's total is the plain sum of the prices of its orders |
| Aggregation.MoisVide | docs/script.js:604-614 | a month without 2025 orders shows 0 |
| Aggregation.Conservation | docs/script.js:599-610 | the twelve monthly sums add up to the sum of all 2025 prices |
| Aggregation.StatsConservees | docs/script.js:599-614 | when every 2025 price is a number, the twelve amounts shown add up to the total price of the 2025 orders |
| Aggregation.StatsExemple | docs/script.js:599-614 | on the seed orders: January 73.50, February 52.00, every other month 0 |
| Aggregation.RemiseAZero | docs/script.js:605-608 | a NaN price spoils a month only until the next order of that month, which restarts from 0; a NaN total is shown as 0 |
| Recipe.CoutLigne | docs/script.js:824-836 | what one simulator row adds: price / 10 x quantity for eggs, price / 1000 x quantity otherwise, nothing for an incomplete row (`CoutLigneReel`, `NaNContamine`) |
| Recipe.CoutRecette | docs/script.js:819-836 | the running total over the rows in page order; equal to an independent plain sum when prices are known (`CoutSansNaN`) and additive over runs of rows (`CoutConcat`) |
| Recipe.CalculerCoutTotal | docs/script.js:817-838 | the running total over the lines is the cost fold over the lines in page order |
| Recipe.CoutLigneReel | docs/script.js:830-836 | a complete line with a known price costs price / 10 × quantity for eggs and price / 1000 × quantity otherwise; an incomplete line costs 0 |
| Recipe.CoutSansNaN | docs/script.js:824-836 | with every chosen price known, the total is the sum over complete lines of price / unit × quantity |
| Recipe.NaNContamine | docs/script.js:832-835 | one complete line with a NaN price makes the total NaN |
| Recipe.CoutConcat | docs/script.js:819-838 | the total of two runs of lines is the sum of their totals |
| Recipe.LigneIncompleteNeutre | docs/script.js:824 | a line without a product or a quantity changes nothing, wherever it stands |
| Recipe.UniteNouveauProduit | docs/script.js:830-835 | a product added through the form is priced per ten exactly when its name mentions eggs |
| Recipe.CoutExemple | docs/script.js:830-836 | 250 g of butter at 9.40 and 4 eggs at 2.50 cost 2.35 + 1.00 = 3.35 |
| Application.SeedMap | docs/script.js:116-118 | the seeds land under consecutive keys from the generator's value; every stored record carries its own key and the kind of the seed it came from |
| Application.SeedMapTaille | docs/script.js:116-118 | seeding stores exactly one record per seed, none overwriting another |
| Application.SeedMapStep | docs/script.js:116-118 | adding the next seed extends the seeded map by exactly that seed |
| Application.SeedNomLibre | docs/script.js:129-131 | with distinct seed names, the next seed store's name is not yet indexed |
| Application.Semer | docs/script.js:129-131 | the seeding loop on an empty store leaves exactly the seeds (the closed form `SeedMap`), one record per seed under consecutive keys, and never hits the unique index |
| Application.SemerSiVide | docs/script.js:115-182 | a store found empty is seeded and relisted; a non-empty one is left as it was, and so is its listing |
| Application.SeedsBienFormes | docs/script.js:109-175 | each seed list holds its store's kind of record, and the seed store names are distinct |
| Application.Find | docs/script.js:436 | `find` by key gives the first record of the list with that key, or nothing exactly when none has it |
| Application.FindInListing | docs/script.js:436 | finding a key in a store's listing is looking the key up in the store |
| Application.App.constructor | docs/script.js:9-11 | the page starts with three empty arrays over the opened stores |
| Application.App.ChargerDonnees | docs/script.js:101-188 | afterwards every array is its store's listing; each store that was empty holds its seeds (4 products, 3 shops, 3 orders) under consecutive keys; each non-empty store is unchanged |
| Application.App.AjouterProduit | docs/script.js:240-273 | refuses exactly an empty name, an empty shop or an unparsed price; otherwise adds the product, egg-flagged by its name, under the next key |
| Application.App.AjouterMagasin | docs/script.js:276-295 | refuses an empty name; fails, storing nothing, exactly when the unique `nom` index (line 42) already has that name; otherwise adds the shop under the next key |
| Application.App.SupprimerProduit | docs/script.js:298-309 | when confirmed removes only key `id`, else changes nothing |
| Application.App.SupprimerMagasin | docs/script.js:311-331 | blocked exactly when the guard's filter is non-empty; otherwise when confirmed removes only key `id`, else changes nothing |
| Application.App.ChangerStatutPaiement | docs/script.js:435-452 | an unknown key changes nothing; otherwise only the status of that order is replaced and every other field, the deposit included, is kept |
| Application.App.AjouterCommande | docs/script.js:454-498 | refuses exactly the forms failing the add check; otherwise adds the built order, with the deposit rule, under the next key |
| Application.App.EditerCommande | docs/script.js:500-521 | gives the prefilled form of the order at `id`, or nothing exactly when there is no such order |
| Application.App.EnregistrerEdition | docs/script.js:524-571 | the save action alone: refuses exactly the forms failing the edit check; otherwise puts the built order at `id` (recreating it if deleted meanwhile) and changes no other key |
| Application.App.ModifierCommande | docs/script.js:867 | a click on the edit form's save button runs the start-up `ajouterCommande` listener, then the save action: a form passing the add check is first added as a new order under the next key, a copy besides the one at `id`, and the store then holds one more order than before |
| Application.App.SupprimerCommande | docs/script.js:575-586 | when confirmed removes only key `id`, else changes nothing |

Every handler of `Application.App` also keeps `App.Valid`. This says the three
stores are well formed, each holds only its own kind of record, and each
in-memory array is the current listing of its store. The two arrays a
handler does not touch stay as they were.

## Left out

- Opening and upgrading the database, creating the secondary indexes on
  `produit`, `magasin`, `date` and `paiement` (which do not constrain), and
  the Promise and async plumbing: the store operations are synchronous.
- Storage failures other than the unique-index violation. With
  `ChargerDonnees`, the seeding never violates the index, so its `catch`
  branch and `return false` are unreachable in the model.
- Every DOM update and all markup: the tables, the cards, the shop
  selector, the detail toggle, the tab switcher, the simulator's extra
  lines and field filling, the modals, `alert`, console logging, and
  `toFixed` formatting.
- The event wiring is modelled only for the save button of the order form.
  At start-up it gets `ajouterCommande` as a click listener (line 867), and
  `editerCommande` sets its `onclick` to the save action (line 524). Every
  "Modifier" click therefore runs both, the listener first: the prefilled
  form passes the add check whenever the order's parts are a non-zero
  number, so each edit save also adds a copy of the order under a fresh key.
  `App.ModifierCommande` models that click; `App.EnregistrerEdition` is the
  save action alone. After a save, `onclick` is set back to `ajouterCommande`
  (line 566), so each later "Enregistrer" click adds the order twice. The
  model does not write out that doubled add: it is two `App.AjouterCommande`
  calls in a row. An edit that is abandoned, or refused by the check at
  line 537 (which returns at line 539), leaves `onclick` set to the save
  action for that `id`: the next "Enregistrer" click on a new order then
  both adds the order and puts the same form over the order at `id`
  (lines 543-555). Wiring of the other buttons, whose handlers run once, is
  not modelled.
- Text-to-number parsing and IEEE floating point: prices are exact reals or
  NaN; quantities in the simulator are reals.
- `new Date` parsing and time zones: the year and month are taken as written.
- `editerProduit` and `editerMagasin`, which the product and shop tables call
  but which are not defined in `docs/script.js`.
- Domain.Lower: lower-cases ASCII, Latin-1 capitals and Œ only, not the
  whole of Unicode `toLowerCase`.
- Storage.ObjectStore.Add: does not model the key generator running out at
  2^53.
- Aggregation.TrierParDate: does not state that orders of the same date keep
  their relative order, though the insertion it uses is stable.
