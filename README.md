# CallableFunction name normalisation

A Dafny model of the `CallableFunction` attribute of the CustomConsole Unity
package, an in-game developer console. Application methods tagged with the
attribute become console commands; the attribute's constructor turns the
declared command name into the stored `functionName`:

1. `AddingMissingDigits` right-pads the name with `'_'` until it is at least
   four characters long (`Mathf.Max(4 - str.Length, 0)` underscores appended);
2. `Replace(" ", "_")` then turns every space into `'_'`.

The model (`callable_function.dfy`, module `CallableFunction`) writes both
steps as functions, the attribute as a class whose `functionName` is a `const`
set once by the constructor (it is get-only in C#). It proves the two promises
of the attribute's documentation (spaces are replaced by `'_'`, so the stored
name contains no space; the stored name is at least four characters long) and,
beyond them, facts about the code itself: the stored name has exactly
`max(|name|, 4)` characters, keeps every non-space character of the declared
name in place, is padded only at the end and only with `'_'`, and normalising
it again changes nothing. An independent position-by-position
description (`IsNormalFormOf`) is shown equivalent to the normalisation in both
directions.

## Model

| member | source | states |
|---|---|---|
| `CallableFunction.ReplaceSpaces` | CustomConsole/Runtime/Console/CallableFunction.cs:23 | the result has the same length as the input, position i is `'_'` where the input has a space and the input's character otherwise, and no space remains |
| `CallableFunction.Max` | CustomConsole/Runtime/Console/CallableFunction.cs:28 | `Mathf.Max` on integers: the result is at least both arguments and equal to one of them |
| `CallableFunction.Underscores` | CustomConsole/Runtime/Console/CallableFunction.cs:29 | `new string('_', n)` has n characters, all `'_'` |
| `CallableFunction.AddingMissingDigits` | CustomConsole/Runtime/Console/CallableFunction.cs:26-30 | the result is `max(|str|, 4)` long, starts with `str` unchanged, and every appended character is `'_'` |
| `CallableFunction.Normalize` | CustomConsole/Runtime/Console/CallableFunction.cs:23 | the stored name contains no space and is at least four characters long |
| `CallableFunction.CallableFunctionAttribute.constructor` | CustomConsole/Runtime/Console/CallableFunction.cs:16-24 | `functionName` is the normalised declared name, so it has no space and at least four characters |
| `CallableFunction.NormalizeLength` | CustomConsole/Runtime/Console/CallableFunction.cs:23-29 | the stored name is exactly `max(|name|, 4)` long: four for short names, the declared length otherwise |
| `CallableFunction.NormalizeAt` | CustomConsole/Runtime/Console/CallableFunction.cs:23-29 | inside the declared name a space becomes `'_'` and every other character is kept; every position past the declared name is `'_'` |
| `CallableFunction.NormalizeCharacterized` | CustomConsole/Runtime/Console/CallableFunction.cs:21-30 | a string is the stored name of `name` if and only if it satisfies the position-by-position description (length, replaced spaces, `'_'` padding) |
| `CallableFunction.NormalizeLongName` | CustomConsole/Runtime/Console/CallableFunction.cs:23-29 | a declared name of four or more characters gets no padding: only its spaces are replaced |
| `CallableFunction.ReplaceSpacesNoSpace` | CustomConsole/Runtime/Console/CallableFunction.cs:23 | replacing spaces leaves a space-free string unchanged |
| `CallableFunction.NormalizeIdempotent` | CustomConsole/Runtime/Console/CallableFunction.cs:21-30 | normalising an already normalised name returns it unchanged |
| `CallableFunction.NormalizeFixedPoint` | CustomConsole/Runtime/Console/CallableFunction.cs:6-24 | a declared name is stored unchanged if and only if it already meets the documented rules: no spaces and at least four characters |
| `CallableFunction.ReplaceSpacesAppend` | CustomConsole/Runtime/Console/CallableFunction.cs:23 | replacing spaces in a concatenation equals concatenating the replaced parts |
| `CallableFunction.PadReplaceCommute` | CustomConsole/Runtime/Console/CallableFunction.cs:23-29 | padding then replacing gives the same name as replacing then padding |

## Left out

- Character counting: C# `string.Length` counts UTF-16 code units, so a character outside the Basic Multilingual Plane counts as two there; the model counts Dafny characters (Unicode scalar values). For names made only of BMP characters other than surrogate code units (U+D800 to U+DFFF, which a C# string can hold alone but a Dafny `char` cannot represent) the two agree.
- A `null` declared name: in C# `str.Length` would throw; Dafny strings cannot be null, so this error path has no counterpart.
- The use of `functionName` when commands are registered (the object-name suffix appended to form the registry key, the tokenizer, dispatcher, argument coercion, log buffer and autocomplete): Runtime/Console/Custom Console Command Helper.cs and the other console files are not part of this model.
- The logger wrapper (CustomConsole/Runtime/Logger/CustomLogger.cs) and the editor tooling (Editor/PathTool.cs, Editor/CreatingCC.cs, CustomConsole/Editor/CreatingCC.cs): engine calls, floating-point colours, file I/O and UI, with no logic of their own to state.
- The attribute-usage restriction (`AttributeUsage(AttributeTargets.Method)`) and the list of supported parameter types in the doc comment are compiler metadata and documentation, not behaviour of the constructor.
