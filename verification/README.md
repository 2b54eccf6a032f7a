# Beepsend analytics resource, modelled in Dafny

This project models the analytics resource of the Beepsend PHP client
(`Beepsend\Resource\Analytic`). The resource offers three operations:

- `summary`: accumulated statistics, optionally for one connection.
- `network`: delivery statistics per recipient network, between two dates.
- `batch`: delivery statistics for one batch.

Each operation builds one request and hands it to the request handler
(`Beepsend\Request::execute`). The request has these parts:

- a path: the action prefix from the resource's `$actions` map, followed by an
  identifier (`$connection` for `summary` and `network`, `$batchId` for
  `batch`). Identifiers go only into the path, never into the parameter array;
- the HTTP method `GET`;
- for `summary` and `network` only, a parameter array. It holds exactly the
  date, `MCC` and `MNC` arguments that are not null, in the order they are
  assigned. `batch` passes no parameter array at all.

The operation returns the handler's result unchanged.

Files:

- `php_values.dfy` (module `PhpValues`): optional arguments (`Option`, where
  `None` is PHP `null`) and non-null scalars (`Value`). It also holds PHP's
  conversion of a scalar to a string under `.`: an integer becomes its decimal
  digits, `true` becomes "1", `false` becomes "", and `null` becomes "".
  A parser proves that the decimal form reads back as the same integer.
- `php_arrays.dfy` (module `PhpArrays`): a PHP array with string keys, kept
  as an ordered sequence of entries. It gives lookup (`$a[k]`), the position
  of a key, and assignment (`$a[k] = v`). The lemmas show that assignment sets
  the key and leaves all other keys alone. A new key is appended at the end;
  an existing key keeps its place.
- `beepsend.dfy` (module `Beepsend`): the handler's interface. `Call` is one
  `execute($path, $method, $data)` call. The class `Request` records every call
  and its result in a ghost log. It returns what an opaque `transport`
  function makes of the call.
- `resource.dfy` (module `Resource`): the `$actions` map and the calls each
  operation makes, as functions (`SummaryCall`, `NetworkCall`, `BatchCall`).
  It also holds the lemmas about those calls and the class `Analytic`.
  `SummaryData` and `NetworkData` build `$data` with conditional assignments,
  one after the other, exactly as the source does. The class's methods call
  them and then the handler. Each method ensures that the handler's log grows
  by exactly that call and the response it returned.

## Model

| member | source | states |
|---|---|---|
| PhpValues.Suffix | src/Beepsend/Resource/Analytic.php:58 | a null identifier concatenates as the empty string; a string identifier is appended as it is |
| PhpValues.DecimalString | src/Beepsend/Resource/Analytic.php:101 | the string of an integer is canonical: digits without leading zeros, after a '-' exactly when the integer is negative, and never "-0" |
| PhpValues.ToPhpString | src/Beepsend/Resource/Analytic.php:101 | an integer id converts to its canonical decimal string, which parses back to that integer; `true` and `false` convert to "1" and "" |
| PhpValues.DigitsRoundTrip | src/Beepsend/Resource/Analytic.php:101 | the decimal digits of a natural number parse back to that number |
| PhpValues.DecimalRoundTrip | src/Beepsend/Resource/Analytic.php:101 | the signed decimal string of any integer parses back to that integer |
| PhpValues.DecimalInjective | src/Beepsend/Resource/Analytic.php:101 | two integers with the same decimal string are equal |
| PhpArrays.Lookup | src/Beepsend/Resource/Analytic.php:48-56 | reading a key gives nothing exactly when the key is absent; otherwise it gives a value stored under that key |
| PhpArrays.Position | src/Beepsend/Resource/Analytic.php:48-56 | a present key's position is its first occurrence in insertion order |
| PhpArrays.Assign | src/Beepsend/Resource/Analytic.php:51 | `$data[k] = v`; its properties are stated by the four lemmas below: AssignLookup, AssignNewKey, AssignExistingKey and AssignDistinct |
| PhpArrays.AssignLookup | src/Beepsend/Resource/Analytic.php:51 | after `$data[k] = v`, `k` reads as `v` and every other key reads as before |
| PhpArrays.AssignNewKey | src/Beepsend/Resource/Analytic.php:51 | assigning a key that is not yet present appends it at the end and keeps the earlier entries in order |
| PhpArrays.AssignExistingKey | src/Beepsend/Resource/Analytic.php:51 | assigning a key that is present keeps the order of keys unchanged |
| PhpArrays.AssignDistinct | src/Beepsend/Resource/Analytic.php:51 | assignment never makes a key occur twice |
| Beepsend.Request.Execute | src/Beepsend/Resource/Analytic.php:58 | one `execute` call: it is appended to the handler's log with its result, and that result is what the handler gives back |
| Resource.ActionMap | src/Beepsend/Resource/Analytic.php:24-28 | the action map has exactly the keys `summary`, `network` and `batch`, and no two actions share a prefix |
| Resource.Present | src/Beepsend/Resource/Analytic.php:48-56 | the array built from the conditional assignments has at most one entry per parameter name; what it holds is stated by PresentLookup, PresentKeysAmongNames, PresentDistinct and PresentOrder below |
| Resource.PresentLookup | src/Beepsend/Resource/Analytic.php:48-56 | after the conditional assignments, each name holds its argument exactly when that argument is non-null; no other key is set |
| Resource.PresentKeysAmongNames | src/Beepsend/Resource/Analytic.php:73-89 | every key of the built array is one of the parameter names |
| Resource.PresentDistinct | src/Beepsend/Resource/Analytic.php:73-89 | the built array holds each key at most once |
| Resource.PresentOrder | src/Beepsend/Resource/Analytic.php:73-89 | two non-null arguments appear in the order of their assignments |
| Resource.SummaryFieldsUnfold | src/Beepsend/Resource/Analytic.php:48-56 | `summary`'s array is the `from_date` entry (if given) followed by the `to_date` entry (if given) |
| Resource.NetworkFieldsUnfold | src/Beepsend/Resource/Analytic.php:73-89 | `network`'s array is the `from_date`, `to_date`, `MCC` and `MNC` entries, each present only if given, in that order |
| Resource.SummaryCall | src/Beepsend/Resource/Analytic.php:58 | the `execute` call `summary` makes: GET, a path that starts with "/analytics/summary/", and an array of at most two entries; SummaryCallSpec states it fully |
| Resource.NetworkCall | src/Beepsend/Resource/Analytic.php:91 | the `execute` call `network` makes: GET, a path that starts with "/analytics/network/", and an array of at most four entries; NetworkCallSpec states it fully |
| Resource.BatchCall | src/Beepsend/Resource/Analytic.php:101 | the `execute` call `batch` makes: GET, a path that starts with "/analytics/batches/", and no parameter array |
| Resource.SummaryCallSpec | src/Beepsend/Resource/Analytic.php:46-59 | `summary` issues GET to "/analytics/summary/" plus the connection. `from_date` is present exactly when `$fromDate` is non-null, and `to_date` exactly when `$toDate` is. Each holds its argument, `from_date` comes first, and no other key is present |
| Resource.NetworkCallSpec | src/Beepsend/Resource/Analytic.php:71-92 | `network` issues GET to "/analytics/network/" plus the connection. Each of `from_date`, `to_date`, `MCC` and `MNC` holds its argument exactly when that argument is non-null. They appear in that order, keys are distinct, and no other key is present |
| Resource.BatchCallSpec | src/Beepsend/Resource/Analytic.php:99-102 | `batch` issues GET to "/analytics/batches/" plus the batch id (its decimal digits for an integer id) and passes no parameter array; this follows directly from the definition of BatchCall |
| Resource.NullIdentifierPaths | src/Beepsend/Resource/Analytic.php:24-28 | with a null identifier, each path is exactly its action prefix; this follows directly from the call definitions |
| Resource.FalsyArgumentsKept | src/Beepsend/Resource/Analytic.php:50-88 | `0`, "", "0" or `false` is still sent under its key, because only null is dropped. This holds for each of `summary`'s two dates, and for each of `network`'s `from_date`, `to_date`, `MCC` and `MNC`, whatever the other arguments are |
| Resource.CallPathsDisjoint | src/Beepsend/Resource/Analytic.php:24-28 | paths of different operations never coincide, whatever their identifiers |
| Resource.BatchPathInjective | src/Beepsend/Resource/Analytic.php:101 | distinct integer batch ids give distinct paths |
| Resource.SummaryExamples | src/Beepsend/Resource/Analytic.php:46-59 | `summary("123")` is GET "/analytics/summary/123" with an empty array; `summary(null, 1000, 2000)` is GET "/analytics/summary/" with `from_date` 1000 then `to_date` 2000 |
| Resource.SummaryData | src/Beepsend/Resource/Analytic.php:48-56 | the two conditional assignments, run one after the other, build exactly the array `SummaryCall` sends |
| Resource.NetworkData | src/Beepsend/Resource/Analytic.php:73-89 | the four conditional assignments, run one after the other, build exactly the array `NetworkCall` sends |
| Resource.Analytic.constructor | src/Beepsend/Resource/Analytic.php:34-37 | the handler is the one given; it and the action map are constants that no method changes |
| Resource.Analytic.Summary | src/Beepsend/Resource/Analytic.php:46-60 | makes exactly one handler call, the one `SummaryCall` describes, and returns the handler's result unchanged |
| Resource.Analytic.Network | src/Beepsend/Resource/Analytic.php:71-93 | makes exactly one handler call, the one `NetworkCall` describes, and returns the handler's result unchanged |
| Resource.Analytic.Batch | src/Beepsend/Resource/Analytic.php:99-103 | makes exactly one handler call, the one `BatchCall` describes, and returns the handler's result unchanged |

## Left out

- `Beepsend\Request::execute` internals are not part of this model. That covers joining the base URL and API version, the connector's HTTP exchange, JSON decoding, and status and decode errors. The model reduces them to the opaque `transport` function of `Beepsend.Request`.
- Beepsend.Request.Execute: `transport` is a function, so the model returns the same result for the same call; a real network need not.
- The `Message` resource, the `Client` class and API-key handling are not part of this model. The Message test fixtures cannot be checked against any code here.
- Arguments that are floats or arrays are left out: `Value` covers integers, strings and booleans. PHP's float-to-string conversion is therefore not modelled.
- PHP's 64-bit integer width is not modelled. Integers are unbounded, and their decimal form is the same as PHP's within that range.
- PHP converts decimal-integer string keys to integer keys. That is not modelled, because the only keys the resource uses are `from_date`, `to_date`, `MCC` and `MNC`.
