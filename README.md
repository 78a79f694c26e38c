# Button class-name composition

A Dafny model of the `Button` component of the UI package. It has two copies:
`packages/ui/src/button.tsx`, where variant and size are typed, and
`packages/ui/src/button.js`, where they are untyped. Both copies run the same steps:

1. They destructure the props with defaults: `variant = "primary"`, `size = "medium"`,
   `fullWidth = false`, `className = ""`. The rest of the props bag is kept as `...props`.
2. They build five candidate class names in a fixed order. The first four are
   lookups in the CSS module's style table: the `button` base style, the variant's
   style, the size's style, and the `fullWidth` style (looked up only when the
   flag is set, otherwise `""`). The fifth is the caller's `className`.
3. They drop the falsy candidates (`filter(Boolean)`) and join the rest with
   single spaces (`join(" ")`).
4. They create a `button` element. Its `className` is that string, followed by the
   spread of the remaining props.

The style table is a parameter, `map<string, string>`. A key that is neither an
entry of the table nor a member the table object inherits reads as `undefined`
(`None`). A missing key and `""` are both falsy. Every operation is a function,
so the same table and props always give the same string.

Modules:

- `Wrappers` holds `Option`.
- `Tokens` models JavaScript's `filter(Boolean)` (`KeepTruthy`) and `join`
  (`Join`). It also defines `Split`, which is `String.prototype.split` on one
  character. `Split` is used as the inverse of `Join` to state what the class
  attribute reads back as.
- `Button` is the untyped copy. `WithDefaults` and `ClassName` work on arbitrary
  strings. `BaseClasses` is the shared `baseClasses` expression. `Render` creates
  the element.
- `TypedButton` is the typed copy. `Variant` and `Size` are closed
  enumerations, and it has its own typed defaults. Its class string is
  `Button.BaseClasses` applied to the erased settings. `CopiesAgree` proves the
  two copies give the same output.

The caller's `className` goes through `filter(Boolean)` like the other
candidates, so an empty `className` is dropped (`CallerClassNameLast`).

## Model

| member | source | states |
|---|---|---|
| `Tokens.KeepTruthy` | packages/ui/src/button.tsx:31 | `filter(Boolean)`: every kept token is non-empty, there are at most as many tokens as candidates, and the result is empty exactly when no candidate is truthy |
| `Tokens.KeepTruthyOne` | packages/ui/src/button.tsx:31 | one candidate filters to `[v]` when it is a non-empty string `v`, and to nothing when it is `undefined` or `""` |
| `Tokens.KeepTruthyAppend` | packages/ui/src/button.js:20 | filtering distributes over concatenation, so kept tokens keep the candidates' relative order |
| `Tokens.JoinEmptyIff` | packages/ui/src/button.tsx:31 | a join of non-empty tokens is `""` exactly when there are no tokens |
| `Tokens.JoinAppend` | packages/ui/src/button.js:20 | appending a token to a non-empty list adds exactly one separator, placed before that token |
| `Tokens.SplitJoin` | packages/ui/src/button.tsx:31 | splitting the join of a non-empty list of space-free tokens on the separator gives back the list exactly: same tokens, same order, each once |
| `Tokens.JoinSplit` | packages/ui/src/button.js:20 | the other direction of the round trip: joining the pieces of any split gives back the original string |
| `Tokens.JoinWellSeparated` | packages/ui/src/button.js:20 | a join of non-empty, space-free tokens does not start or end with the separator and never has two separators in a row |
| `Tokens.JoinSeparatorCount` | packages/ui/src/button.tsx:31 | a join of n space-free tokens holds exactly n - 1 separators |
| `Button.BaseClasses` | packages/ui/src/button.tsx:25-31 | `baseClasses` (the same expression as button.js:14-20) is `""` exactly when the base, variant and size entries are all missing or empty, the fullWidth entry is off or missing or empty, and the caller's class name is empty |
| `Button.KeptTokensInOrder` | packages/ui/src/button.tsx:25-30 | the kept tokens are, in this order: the base style, the variant style, the size style, the fullWidth style (only when the flag is set), and the caller's class name; each appears only when it is a non-empty string |
| `Button.BaseClassesTokens` | packages/ui/src/button.js:14-20 | when no kept token contains a space, the class string splits back into exactly the kept tokens, or is `""` when there are none; it has no leading, trailing or doubled space, and it has one fewer space than tokens |
| `Button.CallerClassNameLast` | packages/ui/src/button.tsx:30-31 | the caller's class name is appended last and verbatim, after a single space if anything precedes it; it is dropped only when empty |
| `Button.FullWidthOffIgnoresEntry` | packages/ui/src/button.js:18 | with the flag off, and with a variant and size other than `"fullWidth"`, the result is the same whether or not the table has a `fullWidth` entry |
| `Button.FullWidthAsVariantKey` | packages/ui/src/button.js:16-18 | in the untyped copy, a variant named `"fullWidth"` picks up the table's `fullWidth` entry even with the flag off |
| `Button.MissingLikeEmpty` | packages/ui/src/button.js:16-17 | a key that is neither an entry of the table nor an inherited object member is silently omitted, exactly as if it mapped to `""`; this includes a made-up variant or size of that kind, and there is no error path |
| `Button.DefaultsFillOmitted` | packages/ui/src/button.js:7-11 | omitted props default to `"primary"`, `"medium"`, `false` and `""`; a given prop is used as given, and passing a prop's default explicitly changes nothing |
| `Button.EmptyTableDefaults` | packages/ui/src/button.js:6-20 | an empty table with every prop omitted gives the empty class string |
| `Button.ScenarioDefaults` | packages/ui/src/button.js:6-20 | the table {button: btn, primary: btn-primary, medium: btn-md} with default props gives `"btn btn-primary btn-md"` |
| `Button.ScenarioMissingEntries` | packages/ui/src/button.js:14-20 | with the same table, props secondary, large, fullWidth and `my-extra` give `"btn my-extra"`, because the missing entries leave no trace |
| `Button.ScenarioFullWidth` | packages/ui/src/button.tsx:25-31 | with a fullWidth entry and the flag set, the fullWidth token sits after the size token and before the caller's class name: `"btn btn-md btn-full x"` |
| `Button.Render` | packages/ui/src/button.js:22-24 | the element is a `button`. Its `className` attribute is exactly the computed class string, whatever the props bag holds, because `className` was destructured out before the spread (the same holds for button.tsx:34-36). Every other attribute is a passthrough prop, unmodified |
| `TypedButton.DefaultsAgree` | packages/ui/src/button.tsx:19-22 | the typed defaults (`Primary`, `Medium`, `false`, `""`) are the untyped ones: defaulting then erasing the types gives the same settings as erasing then defaulting |
| `TypedButton.CopiesAgree` | packages/ui/src/button.tsx:17-31 | the typed copy and the untyped copy produce the same class string for the same table and props |
| `TypedButton.KeysAvoidReserved` | packages/ui/src/button.tsx:6-7 | no variant of the enumeration {primary, secondary, outline, ghost} and no size of {small, medium, large} is the key `"button"` or `"fullWidth"`, or a member every JavaScript object inherits (`Button.InheritedMembers`: `constructor`, `toString`, `__proto__`, …) |
| `TypedButton.FullWidthOffIgnoresEntry` | packages/ui/src/button.tsx:29 | in the typed copy, with the flag off, the `fullWidth` entry never contributes, with no further condition |

## Left out

- Rendering with React is not modelled. This covers JSX and `React.createElement`, `children`, and the `"use client"` directive. `Render` models only the tag and the attribute map of the element.
- How the CSS module produces its hashed class names is not modelled. The style table is an abstract parameter.
- Passthrough props are modelled only as text or boolean values. Event handlers and other JavaScript values are outside the model.
- Props of the wrong JavaScript type are not modelled. Examples are a non-string `variant`, `size` or `className`, a non-boolean `fullWidth`, or an explicit `null`. `PropsOf` reads such a prop as omitted. JavaScript would instead coerce the value to a lookup key or test its truthiness. The typed copy rejects these values.
- Only two falsy values are modelled: `undefined` and `""`. Table values are strings or absent.
- The typed copy's element is not modelled separately. Its JSX sets `className` before `{...props}`, the same attribute order as `Button.Render`.
- The Storybook stories and the Storybook configuration are not modelled. They are declarative demo data.
- Button.FullWidthOffIgnoresEntry: it requires the variant and size to differ from `"fullWidth"`. In the untyped copy such a variant does read the `fullWidth` entry (`Button.FullWidthAsVariantKey`). The unconditional form holds for the typed copy (`TypedButton.FullWidthOffIgnoresEntry`).
- Button.BaseClassesTokens: the split-back property is stated only for tokens without spaces. A caller's class name that contains spaces is covered by `Button.CallerClassNameLast`: it is appended verbatim.
- Button.MissingLikeEmpty: it covers only keys that are neither table entries nor members every JavaScript object inherits from `Object.prototype`. An untyped variant or size such as `"constructor"`, `"toString"` or `"__proto__"` makes `styles[variant]` return a function or an object. That value is truthy, so `filter(Boolean)` keeps it, and `join(" ")` writes its string form (for example `"function Object() { [native code] }"`) into the class string. `Button.Lookup` reads such a key as missing; `Button.InheritedMembers` lists these keys. The typed copy cannot pass these keys: its enumerations name no such member (`TypedButton.KeysAvoidReserved`).
