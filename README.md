# ReportingCloud client: argument validation, property maps and DELETE endpoints

A Dafny model of the request-validation and field-mapping layer of the PHP
client for the ReportingCloud document service:

- the page-number validator (`Page`) and the strict integer-type validator
  (`TypeInteger`), each a class that records the last value and the errors it
  raised, with the accept/reject decision stated as a pure `Check` function
  the class is proved against;
- the image-format validator (`ImageFormat`), a class that keeps the options
  its constructor hands to the `FileExtension` parent, with `haystack` forced
  to the four image formats; the accept/reject decision belongs to that parent
  and is not modelled;
- the API-key length assertion (`assertApiKey`), a pure function that builds
  the unrendered `sprintf` message and hands the key's length, the bounds and
  that message to the assertion library's `range`, taken as a parameter;
- property maps (`getMap`/`setMap` on a class with a replaceable table, and the
  API-key table installed by its constructor);
- the two DELETE endpoints (`deleteApiKey`, `deleteTemplate`) on a client class
  whose collaborators (`uri`, the static validator, the remote service) are
  functions fixed at construction, and whose `sent` field logs every request.

PHP values are the datatype `PhpValues.Value`; PHP strings are byte sequences,
so `strlen` is the sequence length; PHP ints are 64-bit (`int64`).

Modules, one per source file: `PageValidation`, `TypeIntegerValidation`,
`ImageFormatValidation`, `ApiKeyAssertion`, `PropertyMaps` (both property-map
files) and `DeleteEndpoints`; plus `PhpValues` (PHP values) and
`ValidatorBase` (the validator framework's `setValue`/`error` state, whose
base class is not part of this model).

Notes on the model:

- Dafny has no class inheritance here, so the abstract property map and the
  API-key map are one class `PropertyMap`: its anonymous constructor is the
  base's initial (empty) state and its `ApiKey` constructor is the concrete map,
  which installs its table by calling `SetMap`. Likewise `Page` and
  `TypeInteger` hold their framework state in a `base: AbstractValidator`.
  The field is called `mapping` because `map` is a Dafny keyword.
- `setValue` clears the messages of the previous call and `error(key)` stores
  the key's template, as the validator framework's base class does; messages
  hold templates, not text with `%value%` filled in.
- `range` is not part of this model. `AssertApiKey` is proved to hand it
  exactly the key's byte length, 20, 45 and the built message; the 20..45
  verdict is proved under the hypothesis `InclusiveRange` that `range` passes
  exactly when `min <= value <= max`.
- PHP's `?:` treats both `""` and `"0"` as false, so a custom message `"0"`
  also falls back to the default format (`ApiKeyAssertion.ZeroMessageFallsBack`).
- How an image format is compared with the haystack, and whether case is
  ignored, is left to the `FileExtension` parent.
- On delete, every response whose status is not the expected one reads as
  false; a status leads to an exception only when `request` itself throws.

## Model

| member | source | states |
|---|---|---|
| `ValidatorBase.Raised` | src/Validator/Page.php:65-80 | a verdict leaves no message when valid and exactly its one error key, with that key's template, when invalid |
| `ValidatorBase.AbstractValidator.SetValue` | src/Validator/Page.php:65 | the value is recorded and earlier messages are dropped |
| `ValidatorBase.AbstractValidator.Error` | src/Validator/Page.php:68 | the error key is stored with its template; the recorded value is untouched |
| `PageValidation.Check` | src/Validator/Page.php:63-83 | valid iff the value is an int and at least 1; a non-int is always `invalidType` (the range is never consulted), an int below 1 is `invalidInteger`, and every error key has a template |
| `PageValidation.BoundIsInclusive` | src/Validator/Page.php:72-82 | 1, 2 and PHP_INT_MAX pass; 0 fails with `invalidInteger` |
| `PageValidation.UpwardClosed` | src/Validator/Page.php:72-82 | a valid page stays valid when increased |
| `PageValidation.TooSmallMessage` | src/Validator/Page.php:51-54 | -1 is rejected with `invalidInteger`, whose template ends in " contains an invalid page number" |
| `PageValidation.Page.IsValid` | src/Validator/Page.php:63-83 | records the value on every call, returns `Check`'s decision, and leaves exactly the one error key of a failure (none on success) |
| `TypeIntegerValidation.Check` | src/Validator/TypeInteger.php:48-59 | valid iff the value is a PHP int; otherwise the key is `invalidType`, which has a template |
| `TypeIntegerValidation.MagnitudeIrrelevant` | src/Validator/TypeInteger.php:52 | every int passes, negative, zero or extreme alike |
| `TypeIntegerValidation.LookalikesRejected` | src/Validator/TypeInteger.php:52-56 | the numeric string "1", the float 1.0, true and null are rejected with `invalidType` |
| `TypeIntegerValidation.TypeInteger.IsValid` | src/Validator/TypeInteger.php:48-59 | records the value on every call, returns true iff it is an int, raises `invalidType` with "'%value%' must be of type int" on failure and nothing on success |
| `ImageFormatValidation.WithImageHaystack` | src/Validator/ImageFormat.php:28-37 | the parent receives `haystack` = the list of `IMAGE_FORMATS` (BMP, GIF, JPG, PNG in that order) and every other option unchanged, and no other key |
| `ImageFormatValidation.CallerHaystackIgnored` | src/Validator/ImageFormat.php:30-35 | a caller's `haystack` option is overwritten, never merged: the result does not depend on it |
| `ImageFormatValidation.ThumbnailFormats` | src/Validator/ImageFormat.php:30-35 | "PNG" is one of `IMAGE_FORMATS`, the haystack's entries, and "XXX" is not, under exact and under ASCII-case-ignoring comparison |
| `ImageFormatValidation.ImageFormat.constructor` | src/Validator/ImageFormat.php:28-38 | the options handed to the parent are `WithImageHaystack` of the caller's options |
| `ApiKeyAssertion.ApiKeyMessage` | src/Assert/AssertApiKeyTrait.php:50-54 | the slots are filled with the key, 20 and 45 in that order, in the caller's format unless it is falsy ("" or "0"), else in the default format |
| `ApiKeyAssertion.AssertApiKey` | src/Assert/AssertApiKeyTrait.php:46-57 | the outcome is `range`'s, called with strlen(key) (not the key), the bounds 20 and 45, and the built message |
| `ApiKeyAssertion.LengthInRange` | src/Assert/AssertApiKeyTrait.php:29-56 | with an inclusive `range`, a key passes iff 20 <= strlen(key) <= 45 |
| `ApiKeyAssertion.LengthDecides` | src/Assert/AssertApiKeyTrait.php:48-56 | with an inclusive `range`, whether the key passes depends only on its length |
| `ApiKeyAssertion.ZeroMessageFallsBack` | src/Assert/AssertApiKeyTrait.php:51 | a custom message "0" gives the same outcome as no message, whatever `range` does |
| `ApiKeyAssertion.BoundsInclusive` | src/Assert/AssertApiKeyTrait.php:29-36 | with an inclusive `range`, lengths 20 and 45 pass, 19 and 46 fail, whatever the message |
| `ApiKeyAssertion.LengthCountsBytes` | src/Assert/AssertApiKeyTrait.php:48 | a key of ten two-byte UTF-8 characters has strlen 20 and passes an inclusive `range` |
| `PropertyMaps.LookupInvert` | src/PropertyMap/ApiKey.php:30-33 | a table with distinct properties and distinct wire keys maps p to w exactly when its inverse maps w to p |
| `PropertyMaps.ApiKeyMapIsIdentity` | src/PropertyMap/ApiKey.php:30-33 | the API-key table maps exactly `key` and `active`, each to itself, has no repeated property or wire key, and is its own inverse |
| `PropertyMaps.PropertyMap.constructor` | src/PropertyMap/AbstractPropertyMap.php:31 | a fresh map is empty |
| `PropertyMaps.PropertyMap.ApiKey` | src/PropertyMap/ApiKey.php:28-36 | after construction the table is [key => key, active => active] |
| `PropertyMaps.PropertyMap.GetMap` | src/PropertyMap/AbstractPropertyMap.php:38-41 | returns the current table and changes nothing |
| `PropertyMaps.PropertyMap.SetMap` | src/PropertyMap/AbstractPropertyMap.php:50-55 | the table becomes exactly the argument, nothing of the old one survives, and the same object is returned |
| `DeleteEndpoints.Classify` | src/DeleteTrait.php:82-86 | true iff the reply is a response with exactly the expected status; false for any other response or a non-response; a failure of `request` is rethrown, never turned into false |
| `DeleteEndpoints.TemplateDeleteWants204` | src/DeleteTrait.php:112-116 | for template deletion 204 is true while 200 and 404 are false |
| `DeleteEndpoints.Client.Send` | src/DeleteTrait.php:54 | one request is appended to the log and the service's reply to it, given the earlier requests, is returned |
| `DeleteEndpoints.Client.DeleteApiKey` | src/DeleteTrait.php:68-87 | a key the `ApiKey` validator rejects throws InvalidArgument with no request sent; otherwise exactly one DELETE to uri('/account/apikey') with query [key => key] is sent and its reply classified against 200 |
| `DeleteEndpoints.Client.DeleteTemplate` | src/DeleteTrait.php:98-117 | a name the `TemplateName` validator rejects throws InvalidArgument with no request sent; otherwise exactly one DELETE to uri('/templates/delete') with query [templateName => name] is sent and its reply classified against 204 |

## Left out

- `StaticValidator::execute` and the `ApiKey` and `TemplateName` validators it dispatches to are not part of this model: the client takes the decision as an unconstrained function, so that a full file path is rejected as a template name is not stated.
- `FileExtension`, the parent of `ImageFormat`, is not part of this model: how it compares a value with the haystack, and whether it ignores case, is left open; `ThumbnailFormats` covers both comparisons.
- `ApiKeyAssertion.AssertApiKey`: the assertion library's `range` is not part of this model; it is a parameter, and the 20..45 verdict (`LengthInRange`, `LengthDecides`, `BoundsInclusive`, `LengthCountsBytes`) is proved only under the hypothesis `InclusiveRange` (passes exactly when min <= value <= max, as the format's `[%2$s..%3$s]` and the minimum/maximum bounds suggest); what `range` does with the message on failure is not modelled.
- Zend's `GreaterThan` is inlined as the comparison with the minimum 1; its own options and messages are not modelled.
- `%value%` interpolation, `valueToString` and the rendering by `sprintf` are not modelled: messages keep the format and the raw values that fill it. So `sprintf`'s own failure is not captured either: a caller's custom format with more slots than the three arguments makes PHP warn or throw before `range` is reached, and `LengthInRange` speaks only of formats `sprintf` accepts.
- `uri` (the version prefix) and `request` (Guzzle, authentication, timeouts) are functions given to the client; no networking is modelled.
- `ImageFormatValidation.ImageFormat.constructor`: the options are a Dafny map, so the position of `haystack` within PHP's ordered options array is not captured.
- PHP arrays as values are list-shaped only (`Arr`); the option, query and property arrays are modelled by their own types.
- The client constructor in src/ReportingCloud.php, the culture-list build script and the remaining endpoint groups are outside this layer.
