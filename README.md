# Schema of a JSON:API client, in Dafny

This project models the `Schema` construct of a small JSON:API client library.
A schema describes one model type. It has two parts:

- **Definition store.** It holds two maps from property names to definitions:
  one for *attributes* (plain values) and one for *relationships* (references).
  It also holds naming *options*. `add` merges further definitions into both
  maps, and the last write for a key wins. It returns the schema itself, so
  calls can be chained. `init`, which the constructor runs, empties the maps,
  sets the options and then calls `add`.
- **Naming-convention translator.** `transformPropertyName` converts a property
  name between `camelCase`, `snake_case` and `literal`. snake_case to camelCase
  replaces each `_` followed by a lower-case letter with that letter in upper
  case. camelCase to snake_case puts an `_` before each upper-case letter and
  then lower-cases the whole name. Every other pair leaves the name as it is;
  pairs the translator does not support also warn.

Files:

- `wrappers.dfy` (module `Wrappers`): `Option`, for JavaScript's `undefined`.
- `naming.dfy` (module `Naming`): the translator as pure functions on strings,
  with lemmas about lengths, fixed points, idempotence and both round trips.
- `schema.dfy` (module `Schemas`): the store, as a class with two `map` fields
  and an options field. Its methods assign those fields. `Merge` is the pure
  function that states what `Object.assign` does to a map.

Two facts are stronger than a plain reading of the code would suggest, and
both are proved:

- Matches of `/_([a-z])/g` can never overlap, because the second character of
  a match is a letter and not `_`. So the number of replacements is the number
  of positions where `_` is followed by a lower-case letter.
- snake_case to camelCase and back gives the same name exactly when the name
  has no upper-case letter. camelCase to snake_case and back gives the same
  name exactly when no `_` in it is followed by a lower-case letter.

## Model

| member | source | states |
|---|---|---|
| `Naming.SnakeToCamel` | src/lib/schema.ts:104-105 | The output is shorter than the input by exactly the number of positions where `_` is followed by a lower-case ASCII letter (one character removed per match of `/_([a-z])/g`). |
| `Naming.SnakeToCamelNoPair` | src/lib/schema.ts:105 | The output never holds an `_` immediately followed by a lower-case ASCII letter. |
| `Naming.SnakeToCamelFixedPoint` | src/lib/schema.ts:105 | snake_case to camelCase leaves a name unchanged if and only if the name has no `_` followed by a lower-case letter. |
| `Naming.SnakeToCamelExamples` | src/lib/schema.ts:105 | `"a_b"` becomes `"aB"`; `"a__b"` becomes `"a_B"`, because the first `_` is followed by `_` and is kept. |
| `Naming.SnakeToCamelPlainPrefix` | src/lib/schema.ts:105 | Text with no `_` in it passes through snake_case to camelCase unchanged, and the rest of the name is rewritten on its own. |
| `Naming.FirstNameToCamel` | src/lib/schema.ts:105 | `"first_name"` becomes `"firstName"`. |
| `Naming.MarkUppers` | src/lib/schema.ts:107 | The first stage, `replace(/([A-Z])/g, "_$1")`: an `_` goes in before each upper-case ASCII letter, so the length grows by the number of upper-case letters. |
| `Naming.LowerAscii` | src/lib/schema.ts:107 | The second stage, `.toLowerCase()`: the length is unchanged and no upper-case ASCII letter remains. |
| `Naming.CamelToSnake` | src/lib/schema.ts:106-107 | The output has no upper-case ASCII letter, and its length is the input length plus the number of upper-case letters in the input. |
| `Naming.CamelToSnakeFixedPoint` | src/lib/schema.ts:107 | camelCase to snake_case leaves a name unchanged if and only if the name has no upper-case letter. |
| `Naming.CamelToSnakeCons` | src/lib/schema.ts:107 | camelCase to snake_case works one character at a time: an upper-case letter becomes `_` plus its lower-case form, and any other character is lower-cased. |
| `Naming.CamelToSnakeExamples` | src/lib/schema.ts:107 | `"xId"` becomes `"x_id"`; a leading upper-case letter gives a leading `_` (`"Name"` becomes `"_name"`). |
| `Naming.FirstNameToSnake` | src/lib/schema.ts:107 | `"firstName"` becomes `"first_name"`. |
| `Naming.Idempotent` | src/lib/schema.ts:105-107 | Applying either rewrite a second time changes nothing. |
| `Naming.SnakeCamelSnake` | src/lib/schema.ts:105-107 | snake_case to camelCase and back gives the name again if and only if the name has no upper-case ASCII letter. |
| `Naming.CamelSnakeCamel` | src/lib/schema.ts:105-107 | camelCase to snake_case and back gives the name again if and only if the name has no `_` followed by a lower-case letter. |
| `Naming.TransformPropertyName` | src/lib/schema.ts:103-114 | An omitted format means `literal`. snake_case to camelCase and camelCase to snake_case apply their rewrites. A `literal` target or equal formats return the name unchanged. No other pair changes the name. A warning is raised exactly when the source is `literal` and the target is not. A warned call returns the name unchanged. The function is total. |
| `Naming.TransformRoundTrip` | src/lib/schema.ts:103-107 | Through the entry point, snake_case to camelCase and back returns the name if and only if it has no upper-case letter. |
| `Naming.FirstNameRoundTrip` | src/lib/schema.ts:103-107 | Through the entry point, `"first_name"` to camelCase and back to snake_case is `"first_name"` again. |
| `Schemas.Merge` | src/lib/schema.ts:94-98 | An absent source leaves the map unchanged. Otherwise the keys are the union of both key sets, each key of the source takes the source's value, and every other key keeps its old value. |
| `Schemas.MergeLastWriteWins` | src/lib/schema.ts:93-101 | After two merges, a key the second source defines has the second source's value, whatever the first source held. |
| `Schemas.MergeEmpty` | src/lib/schema.ts:94-95 | Merging an empty map (`{}` passes the truthiness test) changes nothing, just like merging an absent one. |
| `Schemas.Schema.constructor` | src/lib/schema.ts:60-65 | Construction runs `init`: each map is the definition's map, or empty when that is absent, and the options are the given ones or `{}`. |
| `Schemas.Schema.Init` | src/lib/schema.ts:85-91 | Afterwards `attributes` is exactly `definition.attributes`, or empty when it is absent; `relationships` follows the same rule; `options` is the given options, or the empty record. |
| `Schemas.Schema.Add` | src/lib/schema.ts:93-101 | `attributes` becomes the merge of its old value with `obj.attributes`, and `relationships` the merge of its old value with `obj.relationships`. Each map depends only on its own old value and its own source. The options are unchanged. The result is the schema itself. |
| `Schemas.AddChained` | src/lib/schema.ts:100 | `schema.add(d1).add(d2)` acts twice on the same schema: both merges apply in order, and a key defined in `d2` ends with `d2`'s entry in either map. |
| `Schemas.OverrideDefaultExample` | src/lib/schema.ts:85-101 | A schema built with attribute `name` defaulting to `""` and then given `name` defaulting to `"x"` ends with only the `"x"` entry and no relationships. |

## Left out

- Warnings: `console.warn` is output only. The model returns it as the `warned` flag of `Naming.Transformed`.
- Naming.LowerAscii: lower-cases ASCII letters only. JavaScript's `toLowerCase` also lower-cases non-ASCII letters (for example `É` becomes `é`); the model leaves them as they are.
- Naming.CamelToSnake: lower-cases ASCII letters only. JavaScript's `toLowerCase` on the whole name also lower-cases non-ASCII letters (for example `É`), which the model keeps as they are. The regex classes `[a-z]` and `[A-Z]` are ASCII-only, so the two rewrites themselves are exact.
- Strings are sequences of Dafny `char`, not JavaScript's UTF-16 code units. Surrogate pairs are not modelled.
- Definitions are opaque type parameters. Their function-valued fields (`default` producers, `get`, `set`, `transform`) and the `type` hint are callbacks and runtime types with no logic here. `OverrideDefaultExample` reduces a definition to its default value.
- TypeScript's `keyof DocType` typing of property names is a type parameter `K`.
- Aliasing: `init` stores the caller's `options` object itself, and `Object.assign` updates the attribute and relationship objects in place, so a holder of those objects sees later changes. The model keeps maps and options as values held in the schema's fields. Outside code holding a reference to them is not modelled.
- Disjointness: the source does not require attribute and relationship names to be disjoint, and the model does not either.
- The example program (`example/src/index.ts`) only calls an HTTP client that is not part of this model (`connect`, `find`, `findById`) and logs the results. It is left out as network I/O.
