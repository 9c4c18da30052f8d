# Nextcloud provisioning module for FOSSBilling, modelled in Dafny

The module lets a FOSSBilling administrator register Nextcloud servers and
ties billing orders to service rows. Three parts of it carry behaviour worth
stating, and each is modelled here with its host dependencies turned into
parameters or an in-memory table:

- **The OCS client** (`nextcloud.dfy`, module `Nextcloud`). `NextcloudAPI` keeps
  a base URL and Basic-auth credentials that only its constructor sets, so it
  is a datatype value. `_callAPI` becomes two pieces. `BuildRequest` gives the
  request curl would be configured with. `ClassifyReply` is a total function
  from what curl reports (transport-error flag and message, HTTP status, body)
  to a result or an exception. curl itself is a `Network` function from
  request to reply, and `json_decode` is a `Decoder` parameter.
  `testConnection` and `testAuthentication` are predicates over the decoded
  OCS envelope. They read nested keys with PHP's null-on-missing semantics,
  compare the status code with `===`, and use PHP's `empty()`.
  `_generateServerName` appends `bin2hex` of four random bytes, and the model
  proves that those bytes can be read back from the name.
- **The server registry** (`admin_api.dfy`, module `AdminApi`). The admin
  API's CRUD over `service_nextcloud_server` is a class holding a
  `map<int, Server>` and an auto-increment counter. Each method states the
  order of its error checks, the new table, and what stays unchanged.
  `server_list` is a loop proved against a `Listing` specification function.
  Three inductive lemmas show that the listing holds every stored row exactly
  once, in id order. No listing shows credentials, because a summary has no
  fields for them. `server_test_connection`
  returns the probes it sent as well as its answer, so the short-circuit of
  `&&` can be stated.
- **The service hooks** (`service.dfy`, module `ServiceNextcloud`). The
  order-lifecycle hooks are methods on a class over the `service_nextcloud`
  table. `getSearchQuery` builds a query string and parameters, and
  `update($manifest)` always throws.

`php.dfy` (module `Php`) models the PHP built-ins the behaviour depends on:
decoded JSON values, nested key reads, `empty()`, `strpos`, a simplified
`strip_tags`, and `bin2hex`. `common.dfy` holds the `Option`, `Result` and
`Outcome` types that stand for PHP's null values and thrown exceptions.

A few behaviours of the code that a reader might not expect, all of which
the model keeps:

- The `997` case in `_callAPI` compares the **HTTP** status with 997, not
  the OCS status code in the body. A 200 reply whose body says 997 is a
  success, and `testAuthentication` then answers false. The lemma
  `OcsUnauthorizedBodyIsNotAnError` shows this.
- `server_update` checks a supplied URL **before** it looks up the id.
- `server_update` does not keep `config` when the caller leaves it out. It
  stores the encoding of null, because `json_encode` never returns null and so
  the `??` fallback never fires.
- The probes do not return false on a failed call. Any exception from
  `_callAPI` passes through `testConnection`, `testAuthentication` and
  `server_test_connection`.
- `activate` checks the product before the client. It throws generic
  exceptions with fixed messages, not a not-found error. Its "Service not
  found" branch cannot be reached: the `\Model_Service` parameter is not
  nullable, so a null model fails at the call with a type error.
- `server_delete` removes the row (RedBean's `trash`). It does not mark the
  row as deleted.

## Model

| member | source | states |
|---|---|---|
| `Php.At` | src/Nextcloud.php:90-91 | a chain of one-step reads (`Php.Index`: an array's entry, or null for a missing key or a non-array); an empty path reads the value itself; once a read meets a non-array, the whole remaining path reads null |
| `Php.AtAppend` | src/Nextcloud.php:90-91 | a nested read along a longer path is a read along its first part, then along the rest |
| `Php.IsEmpty` | src/Nextcloud.php:93 | `empty()` on a string is true only for `""` and `"0"`: every string of two or more characters, `"00"` and `"0.0"` included, is non-empty |
| `Php.StrPos` | src/Nextcloud.php:70 | `strpos` returns the first offset where the needle occurs, and returns nothing only when the needle occurs nowhere |
| `Php.StripTags` | src/Nextcloud.php:71 | the stripped text is no longer than the input and contains no `<` |
| `Php.StripTagsKeepsPlainPrefix` | src/Nextcloud.php:71 | text before the first `<` is kept unchanged, and the rest is stripped on its own |
| `Php.AfterTagSkipsTag` | src/Nextcloud.php:71 | a tag is skipped up to and including its closing `>`, and nothing after it is lost |
| `Php.StripTagsDropsTag` | src/Nextcloud.php:71 | one tag is removed while the text before it and the stripped text after it are kept |
| `Php.StripTagsKeepsPlainText` | src/Nextcloud.php:71 | text without `<` comes out of `strip_tags` unchanged |
| `Php.StripTagsIdempotent` | src/Nextcloud.php:71 | stripping an already stripped body changes nothing |
| `Php.Bin2Hex` | src/Nextcloud.php:135 | `bin2hex` gives two lower-case hex digits per byte |
| `Php.HexDecodeInvertsBin2Hex` | src/Nextcloud.php:135 | the bytes can be read back from `bin2hex`'s output, so the encoding loses nothing |
| `Nextcloud.NextcloudApi.BuildRequest` | src/Nextcloud.php:33-49 | the URL is the stored base, then `/ocs/v1.php/cloud`, then the request path; the credentials are `username:password`; only POST carries the data |
| `Nextcloud.TrailingSlashKept` | src/Nextcloud.php:33 | a base URL ending in `/` is not normalised and gives `//ocs` |
| `Nextcloud.RequestPathDeterminedByUrl` | src/Nextcloud.php:33 | two calls of one client with the same URL ask for the same request path |
| `Nextcloud.ClassifyReply` | src/Nextcloud.php:51-79 | a transport error wins and gives code 500 with `API call failed: ` and curl's message; the call succeeds exactly for 200 and 201, returning the status and the decoded body; 401 and 997 always give Unauthorized with code 401; any other status gives an error whose code is the status and whose message has the body verbatim, or, when the body contains `<html>`, exactly the body with its tags stripped, leaving no `<` |
| `Nextcloud.NextcloudApi.TestConnection` | src/Nextcloud.php:87-94 | GET /capabilities; fails exactly when the call fails, with the call's error; true exactly when the reply is 200 or 201, `ocs.meta.statuscode` is the integer 100, and `ocs.data.version.string` is not empty for PHP |
| `Nextcloud.ZeroVersionFailsConnection` | src/Nextcloud.php:93 | a version string of `""` or `"0"` makes the connection test false even with status code 100 |
| `Nextcloud.NextcloudApi.TestAuthentication` | src/Nextcloud.php:101-105 | GET /users; fails exactly when the call fails; true exactly when the reply is 200 or 201 and `ocs.meta.statuscode` is the integer 100 |
| `Nextcloud.AuthenticationIgnoresSuccessStatus` | src/Nextcloud.php:101-105 | a 200 reply and a 201 reply with the same body give the same authentication answer |
| `Nextcloud.OcsUnauthorizedBodyIsNotAnError` | src/Nextcloud.php:62-68 | an OCS status 997 inside a 200 body is not the Unauthorized error; the authentication test answers false |
| `Nextcloud.GenerateServerName` | src/Nextcloud.php:134-136 | the name is the username, `-`, then 8 lower-case hex digits (length `|username| + 9`) that decode back to the four random bytes |
| `AdminApi.ListingSound` | src/Api/Admin.php:41-47 | every listed entry is the id, name, url and active flag of a stored row |
| `AdminApi.ListingSorted` | src/Api/Admin.php:41-47 | listed ids strictly increase, so no row is listed twice |
| `AdminApi.ListingComplete` | src/Api/Admin.php:41-47 | every stored row is listed |
| `AdminApi.ServerRegistry.ServerList` | src/Api/Admin.php:37-51 | the loop returns the listing of the table: one summary per stored server, in id order, without username or password |
| `AdminApi.ServerRegistry.ServerGet` | src/Api/Admin.php:58-71 | NotFound exactly for an absent id; otherwise that row's id, name, url and active |
| `AdminApi.ServerRegistry.ServerCreate` | src/Api/Admin.php:78-105 | a missing name, then a missing url, then an invalid url fail with nothing stored; otherwise exactly one row is added under the next id, with name, url, username and password copied, active 1, and both timestamps the clock reading |
| `AdminApi.Patched` | src/Api/Admin.php:126-132 | name, url, username, password and active keep their values unless supplied; config is always the supplied value or null; `updated_at` is the clock reading |
| `AdminApi.UpdateDropsUnmentionedConfig` | src/Api/Admin.php:130 | an update that leaves out `config` replaces a stored config with null |
| `AdminApi.ServerRegistry.ServerUpdate` | src/Api/Admin.php:112-139 | a missing id, then an invalid supplied url (before any lookup), then an absent id fail and change nothing; otherwise only that row changes, to its patched form |
| `AdminApi.ServerRegistry.ServerDelete` | src/Api/Admin.php:146-161 | a missing id or an absent id fails and changes nothing; otherwise exactly that row is removed and the other rows are unchanged |
| `AdminApi.ServerRegistry.ServerTestConnection` | src/Api/Admin.php:168-181 | a missing id or an absent id fails before any probe is sent; the authentication probe is sent only after a true connection probe; a probe's exception passes through; true only when both probes answered true |
| `ServiceNextcloud.Update` | src/Service.php:143-147 | `update($manifest)` always fails with an information exception of code 125 and never returns true |
| `ServiceNextcloud.ClientFilter` | src/Service.php:164-166 | the filter applies exactly when `client_id` is present and not null, and carries that value |
| `ServiceNextcloud.Service.GetSearchQuery` | src/Service.php:157-174 | the query is the fixed SELECT, then ` AND client_id = :client_id` exactly when the filter applies, and it always ends with ` ORDER BY created_at DESC`; the only parameter is `:client_id`, present exactly when the filter applies |
| `ServiceNextcloud.Service.Create` | src/Service.php:196-207 | one new row under the next id, holding the order's client and id and both timestamps; server, uuid, hostname, password, config and active are unset |
| `ServiceNextcloud.Service.Activate` | src/Service.php:215-237 | a null model fails with a type error at the call; otherwise "Product not found" comes before "Client not found"; succeeds exactly when the model, product and client all exist; writes nothing |
| `ServiceNextcloud.Touched` | src/Service.php:246 | only `updated_at` changes |
| `ServiceNextcloud.Service.Renew` | src/Service.php:244-248 | only the order's service row changes, and only its `updated_at`; active is untouched |
| `ServiceNextcloud.WithActive` | src/Service.php:257-258 | the flag and `updated_at` are set and every other field is kept |
| `ServiceNextcloud.WithActiveIdempotent` | src/Service.php:255-260 | setting the same flag twice is setting it once, at the later time |
| `ServiceNextcloud.Service.Suspend` | src/Service.php:255-260 | the order's service gets active 0 and a new `updated_at`, nothing else changes |
| `ServiceNextcloud.Service.Unsuspend` | src/Service.php:267-272 | the order's service gets active 1 and a new `updated_at`, nothing else changes |
| `ServiceNextcloud.Service.Cancel` | src/Service.php:279-284 | the order's service gets active 0 and a new `updated_at`, nothing else changes |
| `ServiceNextcloud.Service.Uncancel` | src/Service.php:291-296 | the order's service gets active 1 and a new `updated_at`, nothing else changes |
| `ServiceNextcloud.Service.Delete` | src/Service.php:303-306 | the order's service row is removed and the order no longer reaches a row; other rows are unchanged |

Two scenario methods are clients of these contracts. `AdminApi.RegistryScenario`
creates, lists, renames, deletes and lists a server. `ServiceNextcloud.LifecycleScenario`
creates, suspends twice, unsuspends and deletes a service.

## Left out

- The curl session in `_callAPI` (src/Nextcloud.php:32-60) is the `Network` parameter. The three fixed request headers are not modelled. One probe's reply depends only on its request, so time and retries play no part.
- JSON is not modelled as text. `json_decode` is the `Decoder` parameter, and `json_encode` of `config` is replaced by storing the value itself, so an encoding failure (`false`) is not modelled.
- Nested key reads (`Php.Index`) model only non-numeric keys, which are the only ones the module uses. A read through a JSON string reads as null, which does not reproduce PHP's string-offset behaviour.
- `Php.StripTags` is simplified: it drops every `<...>` span, and an unclosed `<` drops the rest. PHP's `strip_tags` keeps a `<` followed by whitespace, handles comments and quoted `>`, and also drops NUL bytes. Its HTML parsing is not reproduced.
- `FILTER_VALIDATE_URL` and the host validator's `checkRequiredParamsForArray` are predicates passed to the registry. A missing key or a null value always fails the required check. A present id always passes it.
- `date()` is a timestamp parameter. The two `date()` calls in `create` are taken as one reading. `random_bytes(4)` is a parameter of four bytes.
- The host ORM, the logger and the dependency container are replaced by in-memory tables. The log lines are not modelled.
- `install` and `uninstall` are schema DDL and are not modelled. The service table has no `active` column, so the flag is kept on the row model and is unset until a hook sets it.
- src/Controller/Admin.php is not modelled: navigation, routes and templates only.
- `getModulePermissions` (example constants), `toApiArray` (the identity) and the commented-out `getEggsList` are not modelled.
- `ServiceNextcloud.Service.Activate` has no "Service not found" outcome. The `!is_object($model)` branch (src/Service.php:216-218) is dead code behind the non-nullable parameter type, so a null model gives `ModelTypeError`.
- `ServiceNextcloud.Service.Activate` does not model the server lookup through the product's `server_id`. Its result is never used, and the provisioning after it is unfinished in the source. The model also takes the read `$product->config['server_id']` (src/Service.php:230) never to throw: `Product.config` is an already-decoded map. If the product's config were still JSON text, PHP 8 would throw on that non-numeric string offset after both checks pass, where the model answers `Pass`.
- `AdminApi.ServerRegistry.ServerGet` takes the id itself, as its signature says.
- `AdminApi.ServerRegistry.ServerList` lists in increasing id order. This is a fixed order chosen to stand in for the unspecified order of `find()`, which issues a SELECT without ORDER BY. On the MyISAM table the rows come back in physical order, and slots freed by deleted rows are reused, so after a delete a newer server can be listed before older ones.
- The hooks that go through `getService()` report `NoServiceForOrder` when the order has no stored service. In PHP this is a fatal error from calling a method on null.
- A stored server without a username or password makes `server_test_connection` fail with `ClientTypeError`. PHP rejects a null for the client constructor's `string` parameters.
