# Merchant store model

A Dafny model of the volatile merchant store of a small merchant CRUD
service: `MemoryStore`, an in-process table of merchants kept as a
dictionary from integer id to record plus a `_next_id` counter that only
ever goes up, and the pydantic record schemas it stores.

- `schemas.dfy` (module `Schemas`): the record types. `MerchantBase` has a
  required `name` (length 1..100) and an optional `description` (length at
  most 500, absent distinct from empty). `MerchantCreate` and
  `MerchantUpdate` are the same type under two names. `MerchantOut` adds an
  integer `id` with no constraint of its own. `Parse` is the schema check a
  payload passes before it exists; `FromBase` builds an output record from
  an id and a payload, as `MerchantOut(id=..., **payload.dict())` does.
- `store_spec.dfy` (module `StoreSpec`): the store as a value (`Store`: the
  dictionary, its iteration order and the counter), one function per
  operation, the store invariant `Inv`, and the lemmas about sequences of
  operations (ids never reused, a deleted id stays NotFound, listing order).
- `memory_store.dfy` (module `Stores`): the class `MemoryStore` with the
  fields `data`, `order` and `nextId`, whose methods update them in place
  and are each proved to produce exactly the state and result of the
  matching `StoreSpec` function while keeping `Inv`.

The dictionary's iteration order is a field of its own (`order`), because
the store's `list` returns `dict.values()` in insertion order and
reassigning a key keeps its place. The invariant proves that this order is
ascending id. The "not found" failure is a `NotFound` result value. It
carries no id, as the store raises a fixed "Merchant not found" message.
Store operations take a payload that meets the schema (`ValidBase`),
because the service only builds `MerchantCreate` / `MerchantUpdate` values
that passed validation.

## Model

| member | source | states |
|---|---|---|
| `Schemas.Parse` | schemas.py:6-8 | a payload exists exactly when `name` has length 1..100 and `description` is absent or at most 500 long; its fields are kept as given |
| `Schemas.ParseBoundaries` | schemas.py:7-8 | lengths 0 and 101 are refused and 100 accepted for `name`; 500 accepted and 501 refused for `description`; absent and empty descriptions are both accepted and differ |
| `Schemas.FromBase` | schemas.py:19-20 | the output record has the given id and exactly the payload's fields; it meets the output schema iff the payload meets the base schema |
| `Schemas.OutRoundTrip` | schemas.py:19-20 | an output record is its id plus its base fields, and its validity is theirs |
| `StoreSpec.Without` | stores.py:45 | removing a key from the iteration order drops exactly that key and keeps the rest ascending |
| `StoreSpec.Empty` | stores.py:11-14 | a new store satisfies the invariant, holds nothing, has counter 1, answers NotFound for every id and lists nothing |
| `StoreSpec.Get` | stores.py:20-24 | the stored record when the id is present, NotFound otherwise; under the invariant the record's id is the key and no id below 1 or at or above the counter is present |
| `StoreSpec.List` | stores.py:16-17 | exactly the live records, as many as there are keys, each listed record stored under its own id, in strictly ascending id |
| `StoreSpec.Create` | stores.py:26-31 | keeps the invariant; returns a record with the old counter as id and the payload's fields; that key was free; the new keys are the old plus that id; earlier entries unchanged; counter up by one; the id goes last in the order; `get` then returns the record |
| `StoreSpec.Update` | stores.py:33-39 | keeps the invariant; NotFound and no change iff the id is absent; otherwise the entry is replaced wholesale under the same id; other entries, order and counter unchanged; `get` then returns the new record |
| `StoreSpec.Delete` | stores.py:41-45 | keeps the invariant; NotFound and no change iff the id is absent; otherwise exactly that key is removed; the other entries and the counter unchanged; `get` then answers NotFound |
| `StoreSpec.Step` | stores.py:26-45 | any mutation keeps the invariant and never lowers the counter |
| `StoreSpec.Run` | stores.py:26-45 | any sequence of mutations keeps the invariant and never lowers the counter |
| `StoreSpec.CreatedIds` | stores.py:28-30 | the ids the creates of a run return are strictly increasing, at least the counter before the run and below the counter after it, deletes in between notwithstanding |
| `StoreSpec.RunKeepsRetired` | stores.py:26-45 | an id below the counter with no entry stays so through any sequence of mutations |
| `StoreSpec.DeletedStaysNotFound` | stores.py:41-45 | after a successful delete of an id, whatever follows, `get`, `update` and `delete` of that id fail with NotFound |
| `StoreSpec.AcmeScenario` | stores.py:20-45 | create of "Acme" returns id 1 and `get` returns it; update to "Acme Inc"/"updated" returns the new record; delete succeeds; `get` then answers NotFound |
| `StoreSpec.ListAfterDeleteScenario` | stores.py:16-45 | after creating three records and deleting id 2, `list` returns records 1 and 3 in that order |
| `Stores.MemoryStore.constructor` | stores.py:11-14 | a new object has an empty dictionary, empty order and counter 1, the state `Empty` describes |
| `Stores.MemoryStore.List` | stores.py:16-17 | returns what `StoreSpec.List` returns for the object's state, in strictly ascending id |
| `Stores.MemoryStore.Get` | stores.py:20-24 | returns what `StoreSpec.Get` returns for the object's state; succeeds iff the id is a key |
| `Stores.MemoryStore.Create` | stores.py:26-31 | keeps the invariant; new state and result are those of `StoreSpec.Create`; the record has the old counter as id and the payload's fields; the counter goes up by one |
| `Stores.MemoryStore.Update` | stores.py:33-39 | keeps the invariant; new state and result are those of `StoreSpec.Update`; an absent id leaves the object unchanged; a present one has its entry replaced wholesale |
| `Stores.MemoryStore.Delete` | stores.py:41-45 | keeps the invariant; new state and result are those of `StoreSpec.Delete`; an absent id leaves the object unchanged; a present one is removed; the counter never changes |

## Left out

- `SQLiteStore` (stores.py:49-110): its behaviour is that of the SQLite engine (AUTOINCREMENT, `lastrowid`, `rowcount`, `ORDER BY id`, connection context managers), which is not part of this model.
- The `threading.Lock` and the unlocked reads in `list` and `get`: concurrency is not modelled; every operation is one atomic step.
- `HTTPException` as a mechanism and its status code and message: a missing id is the `NotFound` result value.
- main.py (routing, status codes 201/204/422, the `/` discovery document, the module-level store instances, the `ge=1` path check on GET): not part of this model. The model shows the missing check on PUT and DELETE is harmless: under the invariant no id below 1 is ever a key (`StoreSpec.Get`).
- Pydantic's error reports and its way of counting string length: a string is a sequence of characters and its length is `|s|`; `Parse` only says whether a payload is accepted.
- Aliasing: `get` hands out the stored pydantic object itself; records here are values, so a caller mutating a returned record is not modelled (nothing in the service does).
