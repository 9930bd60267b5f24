# Conversation ids and the result cursor of a small PHP messaging backend

This project models three sequential parts of the backend in Dafny.

- **Conversation ids** (module `Token`). `generate_signature` mints an id: a 25-character random salt, then the 40-hex-digit SHA-1 of the salt followed by a fingerprint. `is_signature_match` recomputes that digest from a stored id and compares.
- **Conversation creation** (module `Conversations`). The controller builds the fingerprint `username . REMOTE_ADDR . HTTP_USER_AGENT`. If it has fewer than 7 characters, the controller throws `Bad_Request_Exception("signature is too short")`. Otherwise the model mints an id, appends one row `{id, manager_id, username, last_edit}` to the Conversation table, and the controller answers `{"id": id}`.
- **The database wrapper** (module `Sql`). `Sequel` builds statement text from fixed prefixes. `Sequel_Results` is a forward-only cursor over the rows of a select: `next`, `valid`, `current`, `key`, `rewind`, `to_array`, a cached `count`, and `extract_select_predicate`.

Foreign calls become parameters:
- `sha1` is a parameter of type `Token.Sha1`: any function whose every result is 40 lower-case hex digits. Nothing is assumed about collisions.
- `random_string(25)` is a `salt` parameter of length 25.
- `date(...)` is a `now` parameter.
- The PDO statement behind a cursor is the sequence of rows it yields. `fetch()` pops that sequence and returns `false` once it is empty.
- The answer of the count(*) query is a `dbCount` parameter.
- The Conversation table is a sequence of rows held by the model object.

Module `Php` holds the PHP behaviour the core relies on: `null` as `Option`, exceptions as `Result`/`Outcome`, `substr`, and `strpos`.

One quirk of the code is kept as written. The model hashes `$fig['username'] . $fig['signature']` (server/conversations.php:13). The controller's signature already starts with the username (server/conversations.php:33). So an id minted in production hashes the username twice. It verifies against that doubled string. It verifies against the plain fingerprint only when SHA-1 gives both strings the same digest (`Conversations.ControllerIdVerification`).

## Model

| member | source | states |
|---|---|---|
| `Token.GenerateSignature` | server/conversations.php:3-10 | The id is 65 characters long, which fills the CHAR(65) id column. Its first 25 characters are the salt. The other 40 are the hex SHA-1 of salt followed by input. The tests' own `generate_signature` (server/test/conversationsTest.php:60-64) builds the same shape. |
| `Token.IsSignatureMatch` | server/test/conversationsTest.php:66-71 | A match holds exactly when the stored id has at least 65 characters and SHA-1 of its first 25 characters plus the submitted string equals characters 25 to 64. |
| `Token.RoundTrip` | server/test/conversationsTest.php:80-86 | An id minted for an input verifies against that input. |
| `Token.MatchMeansEqualDigests` | server/test/conversationsTest.php:66-71 | A minted id verifies against another string exactly when SHA-1 gives both strings the same digest under the id's salt. |
| `Token.MatchIgnoresTail` | server/test/conversationsTest.php:68 | Characters after position 65 of a stored id never change the verdict. |
| `Token.ShortIdNeverMatches` | server/test/conversationsTest.php:67-70 | A stored id shorter than 65 characters yields fewer than 40 digest characters and never matches. |
| `Conversations.Fingerprint` | server/conversations.php:32-33 | The fingerprint's length is the sum of the lengths of username (empty when null), address and agent. It begins with the username. |
| `Conversations.UsernameHashedTwice` | server/conversations.php:13 | Through the controller, the hashed input is username, username, address, agent. |
| `Conversations.ControllerIdVerification` | server/conversations.php:31-40 | A controller-minted id verifies against username followed by the fingerprint. It verifies against the bare fingerprint only if SHA-1 gives both the same digest. |
| `Conversations.ModelTestIdVerifies` | server/test/conversationsTest.php:73-86 | The model test's id (username "username", signature "REMOTE_ADDRHTTP_USER_AGENT") verifies against "usernameREMOTE_ADDRHTTP_USER_AGENT". |
| `Conversations.ControllerTestFingerprints` | server/test/conversationsTest.php:137-170 | The default request and the request without a username pass the 7-character gate. The null username with a 2-character address and a 3-character agent does not. |
| `Conversations.NewConversationModel.StartConversation` | server/conversations.php:12-24 | It returns the id minted from the fig's username and signature. It appends exactly one row: that id, the fig's manager id (null when absent), its username, and `now`. Existing rows are unchanged and nothing is deduplicated. |
| `Conversations.NewConversationController.Post` | server/conversations.php:31-45 | With a fingerprint of 7 or more characters, it answers `{"id": id}` and the table gains that one row. Otherwise it fails with `BadRequest("signature is too short")` and the table is unchanged. |
| `Php.Substr` | server/test/conversationsTest.php:67-68 | `substr($s, $start, $length)` for non-negative offsets: the result is the `length` characters of `s` from `start` on, cut short at the end of `s`; its i-th character is the character of `s` at `start + i`. Past the end the result is "" (PHP 8). PHP 5 and 7 return `false` there instead; `is_signature_match` cannot tell the two apart, because `false . $s` is `$s` and `sha1(..) === false` is false, just as a 40-digit digest never equals "". |
| `Php.Strpos` | server/sql.php:59 | It returns the first position where the pattern occurs, with no occurrence before it. It returns `false` exactly when the pattern does not occur. |
| `Sql.ExtractSelectPredicate` | server/sql.php:58-60 | The result is a suffix of the query. With "FROM" present, it starts at the first "FROM". Without it, it is the whole query. |
| `Sql.StatementDeterminesCall` | server/sql.php:11-34 | An illustration of the four statement prefixes: "SELECT ", "INSERT INTO ", "UPDATE " and "DELETE FROM " are distinct, so a statement's text determines its kind and its query. The source does not rely on this. |
| `Sql.SelectStatementPredicate` | server/sql.php:12-20 | The predicate of "SELECT " + query is the query's own predicate, or the whole statement when the query has no "FROM". |
| `Sql.LeadingRows` | server/sql.php:62-68 | The rows `to_array` collects are a prefix of the remaining rows and are all non-empty. If the prefix is shorter, the row after it is empty. |
| `Sql.LeadingRowsOfNonEmptyRows` | server/sql.php:62-68 | When no remaining row is empty, `to_array` collects all of them. |
| `Sql.SequelResults.constructor` | server/sql.php:48-56 | After construction the key is 0 and the current row is the first row, or `false` when there are no rows. The predicate is extracted from the statement and the count cache is empty. |
| `Sql.SequelResults.Fetch` | server/sql.php:103 | It returns the next row the statement yields, or `false` for good once none is left. |
| `Sql.SequelResults.Next` | server/sql.php:100-105 | It returns the old current value and increments the key by exactly 1. The row at the new key becomes current. Once `false`, current stays `false`. |
| `Sql.SequelResults.IsValid` | server/sql.php:88-90 | `valid()` holds exactly while rows remain at the key's position. |
| `Sql.SequelResults.Current` | server/sql.php:92-94 | It returns the row at the key's position, or `false` past the end. |
| `Sql.SequelResults.Key` | server/sql.php:96-98 | It returns the non-negative position, in the result set, of the current row. |
| `Sql.SequelResults.Rewind` | server/sql.php:82-86 | It succeeds exactly when the key is 0, where the cursor still holds every row. Otherwise it fails with "Sequel_Results does not support rewind.". |
| `Sql.SequelResults.ToArray` | server/sql.php:62-68 | It returns the leading non-empty rows from the current position. The key advances by their number plus one. When every remaining row was collected, the cursor is left invalid. |
| `Sql.SequelResults.Count` | server/sql.php:71-80 | The first call caches the database's answer and issues one "SELECT count(*) " + predicate query, executed with the cursor's values. Later calls return the cached value and issue nothing. |
| `Sql.Select` | server/sql.php:11-21 | It returns a fresh cursor at key 0 over the statement's rows. Its predicate comes from "SELECT " + query. |

## Left out

- `Existing_Conversation_Controller::post` (server/conversations.php:54-71) is left out. Its loop is driven by `usleep` timing and by `is_updated`, which returns `rand(0, 1)`. `MAX_UPDATE_CHECKS` is declared but never read, so the code has no bound to prove.
- The `is_updated` tests (server/test/conversationsTest.php:176-220) are left out. They call a method that `Existing_Conversation_Model` does not define.
- router.php is not part of this model, so request routing is not modelled.
- PDO execution is left out: `prepare`, `execute`, `lastInsertId`, `setFetchMode`, the real count(*) query and the test schema. Rows and the count are parameters. `dbCount` is not tied to the number of rows, because the count query runs again against a database that may have changed.
- `Sequel::insert`, `update` and `delete` are modelled only as the statement text they prepare (`Sql.Statement`). The model's insert appends straight to its table sequence.
- The Conversation id column is a primary key, so a duplicate id would fail to insert. The model does not model that failure and makes no claim that ids are unique or unguessable.
- `sha1`, `random_string`, `date`, `json_encode` and `try_array` are parameters or are abstracted. `json_encode(array("id" => $id))` is the value `IdObject(id)`.
- The `Model`/`Controller` base classes, `respond()` and the PHPUnit scaffolding are left out.
- `Token.GenerateSignature`: lengths and offsets are counted in characters, while PHP's `strlen` and `substr` count bytes. The salt is taken as 25 one-byte characters, so the id is 65 bytes as well as 65 characters.
- `Token.IsSignatureMatch`: the salt and digest are split at character offsets 25 and 65. PHP splits at byte offsets, so a stored id with a multi-byte character in its first 65 bytes is split differently in PHP than in the model.
- `Conversations.NewConversationController.Post`: PHP's `strlen` counts bytes, but the model counts characters. The 7-character gate therefore differs from the source for multi-byte fingerprints.
- `Conversations.NewConversationController.Post`: a missing REMOTE_ADDR or HTTP_USER_AGENT reads as "" in PHP. The model takes both as strings that the caller supplies.
- `Sql.SequelResults.constructor`: PHP's `current` is null before the constructor's first `next()`. The model uses `false`, and that value is never observed.
- `Sql.SequelResults`: the `Iterator` interface's use by `foreach` is not modelled. Only the methods themselves are.
