# Item CRUD service: a Dafny model

This project models the core of a small Flask and SQLAlchemy service that keeps a single `items` table. It covers three parts:

- **The item record** (`ItemModel`). A row has an integer primary key, a required name and a nullable description. Its `to_dict` projection gives the JSON object that every item endpoint returns.
- **The item endpoints** (`ApiRoutes`).
  - `GET /api/hii`.
  - `GET /api/items` lists the rows and `POST /api/items` creates one.
  - `GET`, `PUT` and `DELETE /api/items/<id>` read, update and delete one row.
  - Each handler is a function from the table and the request to a `Step`: the response and the table after the commit.
  - The class `ItemStore` holds the table as a `map` field. Its methods do the handlers' work step by step: the lookup, the field assignments, the insert or the delete. Each method is proved to agree with its function.
  - Lemmas that involve several requests are in `ApiProperties`.
- **Startup** (`Startup`). `create_tables` makes up to five attempts. The delay starts at 2 seconds and doubles after each failure. No sleep follows the last attempt. After the loop the `__main__` block either serves on the configured host and port or exits with status 1.

Things the model takes as inputs:

- Id allocation belongs to the database engine. The create operation takes the new id as an argument, `newId`, and requires that it is not already a key. `FreshIdExists` shows that such a key always exists.
- Whether each startup attempt reaches the database is the input `connects(i)`.
- Sleeps are recorded as a list of delays, not performed.
- The environment variables `FLASK_HOST` and `FLASK_PORT` are inputs.

A request body is `Option<Payload>`:

- `None` is a body that is JSON `null`.
- A `Payload` holds the two keys the handlers read.
- Each key is `Absent`, or `Present` with `null` or a string. This is how the partial update tells "key missing" apart from "key set to null".

Behaviour of the handlers that is easy to miss:

- `PUT` does not re-check the name, so an empty name can be stored (`UpdateAcceptsEmptyName`).
- `description` defaults to `''` only on `POST`, and only when the key is absent. An explicit `null` is stored as NULL.
- `PUT` answers 500 in two cases besides the 404 for a missing id, and the table does not change in either:
  - A `PUT` with a `null` body raises on `'name' in data`, so the framework answers 500.
  - A `PUT` with `"name": null` breaks the column's NOT NULL constraint at commit, which also gives 500.

## Model

| member | source | states |
|---|---|---|
| `ItemModel.ToDict` | backend/model/item_model.py:10-15 | the projection has exactly the keys `id`, `name`, `description` |
| `ItemModel.DictRoundTrip` | backend/model/item_model.py:10-15 | each value of the projection is the matching field, unchanged (`null` for a NULL description); reading the object back gives the same record |
| `ItemModel.DictDecodeInverse` | backend/model/item_model.py:10-15 | every JSON object that reads back as an item is exactly that item's projection |
| `ItemModel.ToDictInjective` | backend/model/item_model.py:6-15 | two records with the same projection are equal |
| `ApiRoutes.Hii` | backend/routes/api_routes.py:202-204 | `/api/hii` always answers 200 with the text `hii!` |
| `ApiRoutes.Create` | backend/routes/api_routes.py:212-223 | 400 `Name is required` exactly when the body is JSON `null` or `name` is absent, null or empty, and then the table is unchanged; otherwise exactly one row is added, under the new id, with the given name and a description that is the given value or `''` when the key is absent; the other rows are unchanged; the response is the new row's projection; keys stay equal to ids |
| `ApiRoutes.Get` | backend/routes/api_routes.py:227-234 | 404 `Item not found` exactly when the id is not stored; otherwise 200 with a body that reads back as the stored row |
| `ApiRoutes.Update` | backend/routes/api_routes.py:227-243 | 404 exactly when the id is not stored; 200 exactly when the id is stored, a body is given and `name` is not set to null; on any other outcome the table is unchanged (500 for a null body or null name); on 200 only that row changes, its id is kept, and name and description change exactly when their keys are present; the response is the updated row's projection |
| `ApiRoutes.Delete` | backend/routes/api_routes.py:245-248 | 404 exactly when the id is not stored; otherwise the `Item deleted successfully` message; the table afterwards holds every other row, unchanged, and not that id |
| `ApiRoutes.Listing` | backend/routes/api_routes.py:211 | the list has one object per named id, and the i-th object is the projection of the i-th named row |
| `ApiRoutes.ItemStore.ListItems` | backend/routes/api_routes.py:209-211 | answers 200 with the projections of the stored rows, in an order that names every stored id exactly once; the table is only read |
| `ApiRoutes.ItemStore.CreateItem` | backend/routes/api_routes.py:213-223 | the response and the new table are those of `Create`; keys stay equal to ids |
| `ApiRoutes.ItemStore.GetItem` | backend/routes/api_routes.py:228-234 | the response is that of `Get`; the table is only read |
| `ApiRoutes.ItemStore.UpdateItem` | backend/routes/api_routes.py:228-243 | the lookup, then the field assignments in source order, then the commit give the response and the new table of `Update` |
| `ApiRoutes.ItemStore.DeleteItem` | backend/routes/api_routes.py:245-248 | the response and the new table are those of `Delete` |
| `ApiProperties.FreshIdExists` | backend/model/item_model.py:6 | a finite table always leaves a free key above every stored one, so the requirement on `newId` in `Create` can always be met |
| `ApiProperties.GetAnswersPathId` | backend/routes/api_routes.py:228-234 | while each row is stored under its own id (the primary key at backend/model/item_model.py:6), GET on a stored id answers an object whose `"id"` is the path id |
| `ApiProperties.UpdateAnswersPathId` | backend/routes/api_routes.py:236-243 | under the same invariant, a successful PUT answers an object whose `"id"` is the path id |
| `ApiProperties.ListingIdsDistinct` | backend/routes/api_routes.py:209-211 | under the same invariant, the `"id"` fields of a listing are pairwise distinct |
| `ApiProperties.ListingLength` | backend/routes/api_routes.py:209-211 | the list has exactly as many objects as the table has rows |
| `ApiProperties.ListingContents` | backend/routes/api_routes.py:209-211 | every stored row's projection is in the list, and every object in the list is the projection of a stored row |
| `ApiProperties.CreateThenGet` | backend/routes/api_routes.py:217-234 | after a successful POST, GET on the new id answers exactly what the POST answered |
| `ApiProperties.CreateThenList` | backend/routes/api_routes.py:209-223 | after a successful POST, a listing contains the created object and has one more entry than before |
| `ApiProperties.DeleteThenNotFound` | backend/routes/api_routes.py:228-248 | after DELETE of a stored id, both GET and a second DELETE on it answer 404 and change nothing |
| `ApiProperties.UpdateAcceptsEmptyName` | backend/routes/api_routes.py:237-243 | PUT with `"name": ""` on a stored id answers 200 and stores the empty name |
| `ApiProperties.CreateIgnoresNameWidth` | backend/model/item_model.py:7 | the handler does not check the declared 100-character width: a POST with a 101-character name passes validation, and with an engine that ignores the width (SQLite) the name is stored |
| `ApiProperties.Walkthrough` | backend/routes/api_routes.py:207-248 | from an empty table with id 1 assigned, the sequence POST, GET, partial PUT of the description, DELETE, GET gives the widget object, the same object, the object with the new description, the delete message, and 404 |
| `Startup.BackoffDoubles` | backend/main.py:22-35 | the k-th delay is 2 * 2^k: the first is 2 and each one doubles the one before |
| `Startup.BackoffTotal` | backend/main.py:22-35 | n sleeps add up to 2 * (2^n - 1) |
| `Startup.AllFailSchedule` | backend/main.py:21-35 | when every attempt fails the sleeps are exactly 2, 4, 8, 16, which is 30 in total |
| `Startup.CreateTables` | backend/main.py:19-36 | between 1 and 5 attempts; every attempt before the last one made failed; it returns true exactly when the last attempt made connected, and exactly when one of the five attempts would connect, and it makes no attempt after a success; false only after 5 attempts; the delays slept are the backoff schedule for one fewer than the attempts made, so there is no sleep after the last attempt |
| `Startup.Start` | backend/main.py:38-56 | the process exits, with status 1, exactly when all five attempts fail; otherwise it serves on `FLASK_HOST` (default `0.0.0.0`) and `FLASK_PORT` (default 5000) |

## Left out

- The health, system-information, root and documentation endpoints (backend/routes/api_routes.py:10-199). They use wall-clock time, floating-point uptime, process metrics read through foreign calls, and static text.
- `backend/database.py`: choosing the connection URL from the environment, the SQLite fallback, and the pool options. This is configuration of a library.
- The frontend script (`frontend/script.js`): browser UI code that only calls the endpoints.
- Flask routing and JSON parsing. The `<int:id>` converter is modelled as a `nat` argument. The framework's own answer to a body that is not JSON is not modelled. JSON bodies that are not an object (an array, a string, a number, a boolean) are not modelled either; the handlers themselves answer them: POST gives 400 for a falsy one and 500 otherwise, and PUT on a stored id gives 200 with no change when neither key is a member, and 500 otherwise. Request values other than strings and `null` for `name` and `description` are not modelled; Python's truthiness of such values is therefore not modelled either.
- How the engine picks ids (sequence, rowid, AUTOINCREMENT). The model requires only that the new id is not a stored key.
- The width of the integer `id` column. Ids and path ids are unbounded naturals in the model, while the column is a bounded integer. Two effects are not modelled: on PostgreSQL the 32-bit id sequence can run out, after which every POST answers 500; on SQLite a path id of 2^63 or more cannot be bound at the lookup, so GET, PUT and DELETE on it answer 500 where the model answers 404.
- Transactions, sessions and concurrent requests. Each handler is one atomic step on the table.
- The 100-character width of `name`. SQLite ignores it and PostgreSQL rejects the commit, so the outcome depends on the engine. The model stores any name and states the width only as the predicate `NameFitsColumn`.
- `Startup.Start`: `FLASK_PORT` is taken as an integer that has already been parsed. The `int()` failure on a non-numeric value is not modelled.
- `print` output, `time.sleep`, CORS set-up and `app.run`. Delays are recorded as data and serving is the `Serve` outcome.
- `Item.__repr__` (debug text only).
