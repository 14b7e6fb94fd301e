# Page-data kind predicates and the Babel configuration builder

This project models two small, pure pieces of the Frontity framework and proves
properties of them in Dafny.

**Page-data kind predicates** (module `DataGuards`, `guards.dfy`). A page-data
value carries boolean discriminant properties (`isError`, `isArchive`,
`isSearch`, `isTaxonomy`, … `isComments`). The source exports twenty-two
predicates: one per discriminant (fifteen) and a `…WithSearch` variant for each
of the seven searchable archive kinds (taxonomy, category, tag, author, date,
post-type archive, post archive). Each predicate answers `true` exactly when one
property is present and strictly `=== true`. `Data` is a record of fifteen
`Option<bool>` fields (`None` = property absent); the twenty-two predicates are
Dafny predicates of the same names with a capital first letter (`IsError` for
`isError`), and `Guard`/`Holds` name them so that
properties of all of them are stated once. `Get`/`Set` read and replace one
discriminant, which is how the locality (frame) lemmas are phrased.

The `…WithSearch` predicates test only their primary discriminant and never
`isSearch` (for instance `packages/source/types/data/guards.ts:75`), so at
runtime each is the same predicate as its base one. The model keeps that
behaviour and proves it (`WithSearchIsBase`, `WithSearchIgnoresSearch`,
`WithSearchWithoutSearch`). Despite its name,
`isTaxonomyWithSearch({isTaxonomy: true})` is `true` (guards.ts:75);
`SampleCalls` states it.

**Babel configuration builder** (module `BabelConfig`, `babel.dfy`). The
default export of `packages/core/src/config/babel/index.ts` returns one Babel
`TransformOptions` per build target (`module`, `es5`, `server`). Each lists four
presets and eight plugins in fixed order and sets `compact: true`. Only the
preset-env options depend on the target: `targets` is looked up in a fixed
table, and `useBuiltIns`/`corejs` are the JavaScript expressions
`target === "es5" && "entry"` / `&& "3"`, i.e. the string for `es5` and `false`
otherwise (datatype `Flag = Off | Str(s)`). Preset and plugin entries are a
name with optional options; the builder's result is a map keyed by the target
names.

## Model

| member | source | states |
|---|---|---|
| `DataGuards.GuardReadsOwnField` | packages/source/types/data/guards.ts:33-252 | every one of the 22 predicates is true iff the discriminant it reads is present and `true`; absent or `false` gives false |
| `DataGuards.Reads` | packages/source/types/data/guards.ts:72-202 | the discriminant a predicate reads; for a `…WithSearch` predicate it is never `isSearch` |
| `DataGuards.SearchVariant` | packages/source/types/data/guards.ts:62-202 | which discriminants have a `…WithSearch` twin (the seven archive kinds), and that the twin is unique |
| `DataGuards.WithSearchIsBase` | packages/source/types/data/guards.ts:72-202 | each `…WithSearch` predicate equals its base predicate on every input |
| `DataGuards.WithSearchIgnoresSearch` | packages/source/types/data/guards.ts:72-202 | setting, clearing or deleting `isSearch` never changes a `…WithSearch` predicate |
| `DataGuards.WithSearchWithoutSearch` | packages/source/types/data/guards.ts:72-76 | a `…WithSearch` predicate holds of `{ <primary>: true }`, where `isSearch` is absent and the `isSearch` predicate is false |
| `DataGuards.WithSearchAndSearch` | packages/source/types/data/guards.ts:72-202 | with the primary discriminant and `isSearch` both true, base predicate, `…WithSearch` predicate and `isSearch` all hold |
| `DataGuards.GuardLocality` | packages/source/types/data/guards.ts:33-252 | replacing any discriminant other than the one a predicate reads leaves its answer unchanged |
| `DataGuards.GuardDependsOnlyOnOwnField` | packages/source/types/data/guards.ts:33-252 | two values agreeing on a predicate's discriminant get the same answer from it |
| `DataGuards.SearchIgnoresPrimaryKinds` | packages/source/types/data/guards.ts:52-54 | `isSearch` depends only on the `isSearch` property, whatever primary kind is set |
| `DataGuards.HierarchyNotInferred` | packages/source/types/data/guards.ts:42-44 | without an `isArchive` property `isArchive` is false, e.g. for `{ isCategory: true }` where `isCategory` holds |
| `DataGuards.SingleDiscriminant` | packages/source/types/data/guards.ts:33-252 | when exactly one discriminant is true, the predicates that hold are its base predicate and, if it has one, its `…WithSearch` twin, and no others |
| `DataGuards.SearchableWithSearch` | packages/source/types/data/guards.ts:52-202 | when the only true discriminants are a searchable archive kind and `isSearch`, exactly its base predicate, its `…WithSearch` twin and `isSearch` hold, and the other nineteen are false |
| `DataGuards.OnlyFieldGuards` | packages/source/types/data/guards.ts:33-252 | on the minimal value `{ <field>: true }`, exactly the predicates reading that field hold |
| `DataGuards.AllGuardsListed` | packages/source/types/data/guards.ts:33-252 | the predicates are 22, every one named once (15 base + 7 `…WithSearch`) |
| `DataGuards.SampleCalls` | packages/source/types/data/guards.ts:72-222 | `isPost({isPost: true})` is true, `isPost({isPage: true})` false, `isTaxonomyWithSearch` true with and without `isSearch` |
| `BabelConfig.Name` | packages/core/src/config/babel/index.ts:132-136 | the three targets have the distinct names `module`, `es5`, `server` |
| `BabelConfig.TargetsTable` | packages/core/src/config/babel/index.ts:39-71 | `module` gives `esmodules: true`, `es5` the whole 14-entry browsers list in order, `server` gives `node: "8.10"`; each shape belongs to exactly one target |
| `BabelConfig.AndString` | packages/core/src/config/babel/index.ts:88-89 | `c && "s"` is the string when `c` holds and `false` otherwise |
| `BabelConfig.EnvOptionsFor` | packages/core/src/config/babel/index.ts:84-92 | preset-env `targets` is the table entry; `useBuiltIns: "entry"` and `corejs: "3"` exactly for `es5`, both `false` otherwise; `modules` is `false` |
| `BabelConfig.GetConfig` | packages/core/src/config/babel/index.ts:80-130 | `compact` is true; four presets in order typescript, env, react (`runtime: "automatic"`), emotion css-prop, only env and react with options; eight plugins in order, only the last with options `include: ["CWD"]` |
| `BabelConfig.Build` | packages/core/src/config/babel/index.ts:132-136 | exactly the keys `module`, `es5`, `server`, each mapped to `getConfig` of that target |
| `BabelConfig.ConfigsDifferOnlyInEnvOptions` | packages/core/src/config/babel/index.ts:80-130 | two targets' configurations agree on `compact`, all plugins and every preset but preset-env's options, and are equal only when the targets are |

## Left out

- TypeScript's static narrowing (`data is XData`): it has no runtime effect; only the boolean answers are modelled.
- The payload properties of the page-data variants (their types are not part of this model); the predicates never read them.
- Discriminant properties holding non-boolean values: the declared types make them booleans, so a property is absent or `true`/`false`.
- The "exactly one primary kind" invariant of page data: the predicates neither check nor rely on it. It appears only as preconditions of separate lemmas: `SingleDiscriminant` (exactly one of the fifteen discriminants true, `isSearch` included) and `SearchableWithSearch` (a searchable archive kind together with `isSearch`).
- What Babel, preset-env, browserslist queries and the plugins do: external libraries, kept as opaque names and option values.
- Module import/export plumbing and the `TransformOptions`/`BabelConfigs` type definitions beyond the fields the builder fills in.
- Determinism and repeatability of the predicates and of the builder: every Dafny function is deterministic, so these hold by construction and are not stated as lemmas.
