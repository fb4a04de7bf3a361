# Remote driver of Outerbase Studio, modelled in Dafny

This project models the remote-proxy database driver from `src/drivers/remote-driver.ts`. The driver forwards six operations to a server: `query`, `transaction`, `schemas`, `tableSchema`, `updateTableData` and `selectTable`. Each one builds a request body tagged by `type`. The driver rejects a reply whose `error` field is truthy. `query` and `transaction` then reshape the columnar result set into one record per row, keyed by column name. That reshaping is done by `transformRawResult`. The driver does no other work.

Files:
- `wrappers.dfy`: module `Wrappers`, with `Option` (`None` is JavaScript's `undefined`) and `Result`.
- `transform.dfy`: module `Transform`.
  - `transformRawResult` is written two ways. One is the loops `TransformRow` and `TransformRawResult`. The other is the specification functions `RowOf` (the literal left-to-right `reduce`, `FoldColumns`), `MapRows`, `Transformed` and `TransformAll`.
  - `ReferenceRow` is an independent description of a record: for each column name, the value at the last position with that name.
  - The module also holds the lemmas about these functions.
- `driver.dfy`: module `Driver`.
  - JavaScript values and their truthiness.
  - The request bodies, the parsed reply and the class `RemoteDriver`, which has one function per operation.
  - The network round-trip is a function parameter `server`. It receives a `Call`: the database id, the bearer token and the body.

Two edge cases of `transformRawResult`:
- Short rows. The code still creates each key, with the value `undefined` (line 23). So `RowOf` maps such a key to `None` (`RowOfMissing`).
- Duplicate column names. `o[C[i]] == r[i]` holds for every `i` only when the names are distinct (`RowOfDistinct`). Otherwise the last position with the name wins (`RowOfLastWins`).

Each variant of `RequestBody` is one value of the `type` field. `Tag` gives the string, and its contract shows that each tag belongs to exactly one variant. The operations' contracts name the variant they send.

## Model

| member | source | states |
|---|---|---|
| Transform.At | src/drivers/remote-driver.ts:23 | reading `r[idx]` gives the element when `idx` is inside the row and `undefined` past its end |
| Transform.FoldColumns | src/drivers/remote-driver.ts:22-25 | the `reduce` step `a[b] = r[idx]` from position `idx` on adds exactly the names at positions `idx` and later to the accumulator's keys |
| Transform.RowOf | src/drivers/remote-driver.ts:22-25 | the record built for one raw row, starting from `{}`, has exactly the column names as keys: no extras, no omissions |
| Transform.ReferenceRow | src/drivers/remote-driver.ts:22-25 | an independent definition of the record: it is keyed by exactly the column names, and a name whose position is its last maps to the value at that position |
| Transform.Transformed | src/drivers/remote-driver.ts:19-27 | `{...raw, rows: ...}`: the columns and other fields are the input's, and the number of rows is kept |
| Transform.TransformRow | src/drivers/remote-driver.ts:22-25 | the loop that folds over the columns builds exactly the record `RowOf` describes |
| Transform.TransformRawResult | src/drivers/remote-driver.ts:18-30 | the loop over the rows yields `Transformed(raw)`: the columns and other fields copied, the rows replaced |
| Transform.LastIndexOf | src/drivers/remote-driver.ts:22-24 | the position returned carries the name, and no later position does |
| Transform.MapRows | src/drivers/remote-driver.ts:21 | mapping the rows keeps their number |
| Transform.TransformAll | src/drivers/remote-driver.ts:78 | mapping a batch keeps its number of result sets |
| Transform.RowOfLastWins | src/drivers/remote-driver.ts:22-24 | a column's value is the raw value at the last position with that name; earlier duplicates are overwritten |
| Transform.RowOfDistinct | src/drivers/remote-driver.ts:22-24 | with distinct names and a long enough row, column `i` maps to `row[i]` |
| Transform.RowOfMissing | src/drivers/remote-driver.ts:23 | a column past the end of a short row is still a key, holding `undefined` |
| Transform.RowOfDropsExtra | src/drivers/remote-driver.ts:22-25 | raw values past the last column do not affect the record |
| Transform.RowOfMatchesReference | src/drivers/remote-driver.ts:22-25 | the fold equals the reference record: one key per name, with its last-position value |
| Transform.MapRowsAt | src/drivers/remote-driver.ts:21 | output row `k` is built from input row `k` |
| Transform.TransformedShape | src/drivers/remote-driver.ts:19-21 | columns and other fields are unchanged; rows keep number and order; row `k` is `RowOf` of input row `k` |
| Transform.TransformedKeys | src/drivers/remote-driver.ts:19-25 | every transformed row is keyed by exactly the column names |
| Transform.TransformAllAt | src/drivers/remote-driver.ts:78 | element `k` of a transformed batch is the transform of input element `k` |
| Driver.RemoteDriver.constructor | src/drivers/remote-driver.ts:37-41 | the id, token and name are those given; they are constants afterwards |
| Driver.RemoteDriver.Request | src/drivers/remote-driver.ts:47-61 | the call carries the driver's id and token; the result fails with the error value exactly when the reply is an object with a truthy `error`; otherwise it is the reply unchanged, including a `null` reply |
| Driver.RemoteDriver.Query | src/drivers/remote-driver.ts:63-70 | sends a `query` body with the statement; it fails on a truthy error or a `null` reply, and otherwise returns `Transformed(data)` |
| Driver.RemoteDriver.Transaction | src/drivers/remote-driver.ts:72-79 | sends a `batch` body with the statements; it fails as `query` does, and otherwise returns every result set of `data` transformed |
| Driver.RemoteDriver.Schemas | src/drivers/remote-driver.ts:83-86 | sends a `schemas` body; it fails as `query` does, and otherwise returns `data` untouched |
| Driver.RemoteDriver.TableSchema | src/drivers/remote-driver.ts:88-92 | sends a `schema` body with the table name; it fails as `query` does, and otherwise returns `data` untouched |
| Driver.RemoteDriver.UpdateTableData | src/drivers/remote-driver.ts:94-103 | sends an `update-table-data` body with the ops and table name; it returns the whole reply, not `data` |
| Driver.RemoteDriver.SelectTable | src/drivers/remote-driver.ts:105-116 | sends a `select-table` body carrying the options' `limit`, `offset` and `whereRaw`; it returns the whole reply |
| Driver.Truthy | src/drivers/remote-driver.ts:58 | a value is truthy exactly when it is none of `undefined`, `null`, `false`, `0`, `NaN`, `""` |
| Driver.RequestBody.Tag | src/drivers/remote-driver.ts:64-115 | each body's `type` is `query`, `batch`, `schemas`, `schema`, `update-table-data` or `select-table`, and each tag belongs to exactly one variant |
| Driver.EmptyErrorPasses | src/drivers/remote-driver.ts:58-60 | a reply whose `error` is the empty string passes the check unchanged |
| Driver.QueryShape | src/drivers/remote-driver.ts:63-70 | a successful query keeps the server's columns and other fields; it gives one record per raw row, in order, each keyed by exactly the columns |
| Driver.TransactionKeepsOrder | src/drivers/remote-driver.ts:72-79 | a successful transaction returns as many result sets as the server sent; element `k` is the transform of the server's element `k` |
| Driver.QueryExample | src/drivers/remote-driver.ts:18-30 | data with columns `a`, `b` and rows `[1,2]`, `[3,4]` gives the records `{a:1,b:2}` and `{a:3,b:4}` |

## Left out

- `fetch`, the URL `/api/ops/{id}`, the HTTP method and the header strings (lines 48-55) are not modelled. The server is a function parameter. It receives the database id, the token and the body as abstract values.
- JSON serialisation of the body and parsing of the reply (lines 54, 57) are library code and are not modelled. The reply is given already parsed. The unchecked cast `json as T` (line 60) becomes the reply's type parameters.
- `async`/`await` are not modelled: every operation is a synchronous function of its inputs and the server.
- `close()` (a no-op) and `getEndpoint()` (returns `name`) are not modelled, because there is nothing to verify in them. `name` is kept as a constant of the class.
- Statements, row operations, schema items, cell values and the other fields of a result set are external types, passed through untouched. They are type parameters here.
- Request: the thrown `Error` carries the `error` value itself. Its conversion to a message string is not modelled.
- JavaScript numbers are modelled as reals, with `NaN` apart. Infinities and `-0` are not distinguished, and `limit`/`offset` are integers.
- Transform.RowOf: a record is a map, so it keeps no key order. JavaScript objects list integer-like keys first, so key order is not modelled.
- Transform.RowOf: a column named `__proto__` is treated as an ordinary key. In JavaScript, assigning it on a plain object sets the prototype instead of creating a key.
- Other fields of the selection options are not modelled. The selection options type (`SelectFromTableOptions` in `./base-driver`) is not part of this model. The model keeps only the three fields the driver reads.
