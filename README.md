# stremio-removit content filter, modelled in Dafny

The add-on sits between a Stremio client and an upstream metadata add-on
(AIO). For a meta request it fetches the upstream meta record, runs the
classifier `shouldFilterItem` on it, and either returns the record unchanged
or answers `{ meta: null }`, which the client reads as "this item does not
exist".

`shouldFilterItem` reads two fields of the record:

1. the lower-cased `country` (missing or empty: `""`) containing any of `cn`,
   `china`, `hk`, `taiwan`, `in`, `india` blocks the item;
2. otherwise, a country containing `kr`, `kor` or `korea` marks the item as
   Korean, and a Korean item is blocked when its `genres` contain `Drama` and
   at least two entries from `Romance, Comedy, Medical, Legal, Family,
   Melodrama`, or when some genre, lower-cased, contains `korean`;
3. everything else is allowed.

Containment is raw substring containment, exactly as `String.includes`
does it: "Spain", "Argentina", "United Kingdom" and "Ukraine" all contain
`in` and are blocked by rule 1. The model reproduces this behaviour and
proves it in `FilterProperties.InsideWordsBlocked` and
`FilterProperties.UkraineBlockedByRegion`. Conversely, a country spelled
out as "Hong Kong" contains none of the codes (`hk` is only the
abbreviation) and is allowed (`FilterProperties.HongKongSpelledOutAllowed`).

Layout:

- `wrappers.dfy`: module `Wrappers`, the `Option` type for fields a record may lack.
- `text.dfy`: module `Text`. ASCII lower-casing (`Lower`, `LowerStr`),
  containment as a specification (`IsSubstring`, an `exists` over start
  positions) and as the scanning function `Includes` proved equal to it.
- `filter.dfy`: module `Filter`. The record `Item`, the source's constant
  lists, `ShouldFilterItem` written as the JavaScript is, and an independent
  statement of the blocking policy (`Blocked`). `ShouldFilterItemMeetsPolicy`
  proves the two agree. The policy uses the shortest equivalent code lists
  (`cn, hk, taiwan, in` and `kr, kor`), because `china` and `india` contain
  `in` and `korea` contains `kor`. The subgenre count is stated as a sum of
  multiplicities.
- `filter_properties.dfy`: module `FilterProperties`, the classifier's
  properties and worked examples.
- `meta_handler.dfy`: module `MetaHandler`, the handler's decision with the
  upstream fetch as an input. `Upstream` is what the request of
  index.js:6-7 produced (a thrown error, no `meta`, or a record), and
  `MetaResponse` is the `{ meta }` reply of index.js:11, 21, 25 and 29.

## Model

| member | source | states |
|---|---|---|
| `Text.Lower` | index.js:35 | lower-casing yields no upper-case ASCII letter, maps `A`-`Z` to the same letter in `a`-`z` and leaves every other character unchanged |
| `Text.LowerStr` | index.js:35 | lower-casing a string keeps its length and lower-cases each character in place |
| `Text.LowerStrNormalizes` | index.js:61 | a lower-cased string has no upper-case letter, lower-casing is idempotent, and lower-case strings are left unchanged |
| `Text.Includes` | index.js:40-42 | `s.includes(sub)` is true exactly when `sub` occurs at some position of `s` |
| `Filter.GenresOf` | index.js:36 | no contract of its own: `MissingGenresAreEmpty` states that a missing `genres` field acts as `[]` |
| `Filter.CountryOf` | index.js:35 | the country the rules see is lower-case: the lower-cased `country`, or `""` when the field is missing |
| `Filter.IncludesAny` | index.js:40-42 | a chain of `country.includes(code)` tests is true exactly when some code of the list occurs in the country |
| `Filter.MatchingSubgenres` | index.js:50-51 | the filtered genres are typical subgenres drawn from `genres`, each kept as many times as it occurs in `genres` |
| `Filter.LongCodesContainShortOnes` | index.js:40-48 | `china` and `india` contain `in`, and `korea` contains `kor` |
| `Filter.RegionCodesReduce` | index.js:40-42 | the six region codes block exactly the countries that contain `cn`, `hk`, `taiwan` or `in` |
| `Filter.KoreanCodesReduce` | index.js:48 | the three Korean codes match exactly the countries that contain `kr` or `kor` |
| `Filter.MatchingSubgenresCount` | index.js:51-54 | the length compared against 2 is the number of entries of `genres` that are typical subgenres, duplicates counted |
| `Filter.HasKoreanTag` | index.js:61 | no contract of its own: `HasKoreanTagSpec` specifies it |
| `Filter.HasKoreanTagSpec` | index.js:61 | the `korean` tag test holds exactly when some genre, lower-cased, contains `korean` |
| `Filter.ShouldFilterItem` | index.js:34-73 | no contract of its own: `ShouldFilterItemMeetsPolicy` specifies it |
| `Filter.ShouldFilterItemMeetsPolicy` | index.js:34-73 | `shouldFilterItem` blocks exactly when the region rule matches, or the Korean rule matches and the genres are a melodrama (Drama and at least 2 subgenres) or tagged Korean |
| `FilterProperties.RegionBlocksRegardlessOfGenres` | index.js:40-45 | a country matching the region rule is blocked whatever the genres |
| `FilterProperties.OtherCountriesAllowed` | index.js:70-72 | a country matching neither the region codes nor the Korean codes is allowed |
| `FilterProperties.KoreanRule` | index.js:48-67 | a Korean country outside the region rule is blocked exactly when the genres are a melodrama or tagged Korean |
| `FilterProperties.FewSubgenresAllowed` | index.js:54-67 | outside the region rule, fewer than 2 subgenres and no `korean` tag means allowed |
| `FilterProperties.DramaAloneAllowed` | index.js:49-67 | outside the region rule, genres exactly `[Drama]` are allowed |
| `FilterProperties.MissingCountryAllowed` | index.js:35 | a missing or empty country is never blocked, whatever the genres |
| `FilterProperties.MissingGenresAreEmpty` | index.js:36 | a missing `genres` field gives the same verdict as an empty list |
| `FilterProperties.CountryCaseIrrelevant` | index.js:35 | countries equal up to ASCII case get the same verdict |
| `FilterProperties.GenreOrderIrrelevant` | index.js:49-64 | two genre lists with the same entries and multiplicities, in any order, get the same verdict |
| `FilterProperties.MoreGenresNeverUnblock` | index.js:49-64 | appending genres never turns a block into an allow |
| `FilterProperties.UkraineBlockedByRegion` | index.js:38-48 | "Ukraine" contains `kr`, but the region rule blocks it first because it contains `in` |
| `FilterProperties.InsideWordsBlocked` | index.js:40-42 | "Spain", "Argentina" and "United Kingdom" are blocked, whatever their genres, because they contain `in` |
| `FilterProperties.HongKongSpelledOutAllowed` | index.js:38-48 | "Hong Kong" spelled out matches neither rule and is allowed, whatever its genres |
| `FilterProperties.KrIsKoreanOnly` | index.js:40-48 | "kr" matches the Korean rule and not the region rule |
| `FilterProperties.DuplicateSubgenresCount` | index.js:51-54 | a Korean `[Drama, Romance, Romance]` is blocked: the repeated subgenre counts twice |
| `FilterProperties.CapitalizedGenresCount` | index.js:49-54 | a Korean `[Drama, Romance, Comedy]` is blocked |
| `FilterProperties.LowerCaseGenresDoNotCount` | index.js:49-51 | a Korean `[drama, romance, comedy]` is allowed: genre names match case-sensitively |
| `FilterProperties.KoreanTagAnyCase` | index.js:61-64 | a Korean item tagged `KOREAN Drama` is blocked: the tag test ignores case and matches inside a longer name |
| `MetaHandler.HandleMeta` | index.js:4-30 | the reply is `{ meta: null }` exactly when the fetch failed, the upstream meta is absent, or the item is blocked; otherwise it is the upstream meta itself, unchanged |
| `MetaHandler.ServedMetaIsAllowed` | index.js:17-25 | a meta the handler returns is one the blocking policy allows |
| `MetaHandler.HandleMetaIdempotent` | index.js:19-25 | feeding the handler's reply back through it gives the same reply |

## Left out

- The `axios.get` request to the upstream add-on: network I/O, modelled as the input `MetaHandler.Upstream`.
- The `console.log` and `console.error` calls: logging only, no effect on the verdict.
- The `builder.defineMetaHandler` registration and `async`/`await`: Stremio SDK plumbing.
- Exceptions from ill-typed records (a non-string `country`, a non-array `genres`, a non-string genre entry, a missing `response.data`): in the source they reach the handler's `catch`; here they are folded into `Upstream.Failed`, and the record fields are typed. The fold covers only records that actually throw: `genres` is touched only on the Korean branch (index.js:49-61), so the source serves a non-Korean record with an ill-typed `genres` unchanged, which the typed model cannot express.
- JavaScript truthiness of `meta` and `genres`: `meta` is present or absent, and a falsy `genres` is modelled as a missing one.
- Text.Lower: only ASCII letters are lower-cased; `toLowerCase` also maps non-ASCII letters (some to two characters), which the model does not capture.
- The catalog and stream handlers and every other part of the add-on are not part of this model.
