# weapp-native: a verified model of the JSX-to-mini-program transform

weapp-native turns a React-like app written in JSX (an `App`, `Page`s,
`Component`s and function templates) into a WeChat mini program. For each
module it writes a `.js` behaviour script, a `.json` configuration, `.wxml`
markup and a `.wxss` stylesheet.

This project models the core of that compiler:

- `transform` (`src/bin/transform.js`): one source module becomes an output record.
  - The Babel visitors accumulate the members of the behaviour object, the component's methods and property descriptors, the imported pages, components and templates, the component relations and the JSON configuration. The model keeps these accumulators as the fields of one object (`Traversal.Visitors`) that each visitor updates in place.
  - The same steps are also written as pure functions (`Transform.Transformed`), and the traversal is proved to compute exactly them.
- From the driver (`src/bin/index.js`):
  - the `scan` loop, which builds the module table and the reverse-reference index `referenced`;
  - `gen`, the memoised depth-first walk that transforms every module after its dependencies;
  - `writeOutput`, with its directory and file-suffix rules.

Where the shipped code and its comments or tests disagree, the model follows
the code:

- Page paths keep no `./` prefix (`pages/index`).
- `usingComponents` holds `../child`.
- Local and framework imports get no `../` prefix, because the loop that would add one is commented out.
- A page's JSON is always at least `{}`.
- The `CSS`/`WXSS` tagged-template visitor is never installed. The traversal uses only the script and JSX visitors.
- A module transformed without an id fails. The stylesheet lookup parses the missing id, which raises a `TypeError`; the model turns that into `MissingModuleId`.
- A local import whose source already has an extension keeps it and gets it again: `./a.jsx` becomes `./a.jsx..jsx`.

Supporting modules:

- `Paths` models Node's POSIX `path` functions as they are used here.
- `OrderedMaps` models JavaScript objects used as dictionaries whose keys are listed in the order they were first assigned. That is JavaScript's order for keys that are not integer-like; see "## Left out".
- `Strings` models the unanchored regular-expression tests, `replace`, `toLowerCase`, split and join.
- `Ast` holds the parsed shapes the visitors read. Expressions that are only printed carry their printed text.

## Model

| member | source | states |
|---|---|---|
| OrderedMaps.Keys | src/bin/transform.js:398 | the keys of an object are listed in the order they were first assigned (JavaScript's order for keys that are not integer-like), one per entry |
| OrderedMaps.KeysListedOnce | src/bin/transform.js:398 | in an object built by assignments the keys are listed once each |
| OrderedMaps.Get | src/bin/transform.js:171 | a lookup finds a value exactly when the key has been assigned |
| OrderedMaps.Put | src/bin/transform.js:168-170 | assigning a known key keeps the key order; a new key that is not integer-like goes last |
| OrderedMaps.PutGetSame | src/bin/transform.js:168-170 | after `obj[k] = v`, `obj[k]` is `v` |
| OrderedMaps.PutGetOther | src/bin/transform.js:168-170 | an assignment leaves every other key's value unchanged |
| OrderedMaps.PutKeepsKeysDistinct | src/bin/transform.js:168-170 | assignment never creates a duplicate key |
| OrderedMaps.PutAllKeepsKeysDistinct | src/bin/transform.js:489 | `Object.assign` never creates a duplicate key |
| OrderedMaps.PutAllKeepsPrefix | src/bin/transform.js:498-501 | `Object.assign` keeps the target's keys first, in their order, when the source object has no integer-like keys |
| OrderedMaps.PutAllGet | src/bin/transform.js:498-501 | after `Object.assign(a, b)`, a key of `b` reads `b`'s value and any other key reads `a`'s |
| Strings.ContainsAt | src/bin/transform.js:163 | a substring at any position makes the unanchored pattern test succeed |
| Strings.ContainsWitness | src/bin/transform.js:163 | a successful unanchored test has a position where the substring occurs |
| Strings.NotContainsFirst | src/bin/transform.js:122 | a string without the pattern's first letter never matches it |
| Strings.ToLower | src/bin/transform.js:370 | ASCII lower-casing: no capital is left, each capital becomes its small letter, and every other character is kept in place |
| Strings.ToLowerContains | src/bin/transform.js:369-370 | a superclass name containing a role name still contains it after lower-casing |
| Strings.ReplaceFirstAbsent | src/bin/transform.js:145 | `replace` with a string pattern that does not occur leaves the string unchanged |
| Strings.Split | src/bin/transform.js:287 | splitting a path on `/` gives at least one piece, none holding the separator |
| Strings.JoinSplit | src/bin/transform.js:287 | joining the pieces of a split with the separator gives back the string |
| Strings.SplitJoin | src/bin/transform.js:287 | splitting a join of separator-free pieces gives back the pieces |
| Paths.ExtShape | src/bin/transform.js:344 | `extname` is empty or starts with a dot, and name plus extension is the base name, without `/` |
| Paths.DirBaseRelative | src/bin/transform.js:293-294 | a relative path is its directory, `/` and its base |
| Paths.ParseFormat | src/bin/transform.js:302-303 | `path.format(path.parse(p))` is `p` for a relative path without a trailing slash |
| Paths.ResolvedClean | src/bin/transform.js:287 | `path.resolve` gives absolute segments, none `.`, `..` or empty |
| Paths.RelativeWalk | src/bin/index.js:115 | walking the segments of `path.relative(a, b)` from `a` lands on `b` |
| Paths.RelativeShape | src/bin/index.js:115 | `path.relative` is empty or a relative path |
| Paths.RelativeRoundTrip | src/bin/index.js:115 | `path.resolve(a, path.relative(a, b))` is `path.resolve(b)` |
| Roles.FirstReturn | src/bin/transform.js:361 | `find(isReturnStatement)` gives nothing when no statement returns, and otherwise the first return |
| Roles.ClassifyFunction | src/bin/transform.js:357-367 | an exported function is a `template` exactly when its first `return` gives JSX; otherwise the module stays `local_module` |
| Roles.ClassifyRoleClass | src/bin/transform.js:369-371 | a superclass whose name contains a role name makes the module's type that name lower-cased |
| Roles.ClassifyExactRoles | src/bin/transform.js:369-371 | `App`, `Page`, `Component` and `Game` give `app`, `page`, `component` and `game` |
| Rename.RenameRemovesSetState | src/bin/transform.js:153-160 | after the call visitor no call is `x.setState(...)` |
| Rename.RenameKeepsOtherCode | src/bin/transform.js:153-160 | code without a `setState` call is left as it was |
| Rename.RenameIdempotent | src/bin/transform.js:153-160 | running the call visitor twice changes nothing more |
| Rename.RenameInitRemovesSetState | src/bin/transform.js:153-160 | no field initialiser keeps a `setState` call |
| Rename.RenameFnRemovesSetState | src/bin/transform.js:153-160 | no method body keeps a `setState` call |
| Rename.RenameStmts | src/bin/transform.js:153-160 | no statement of a renamed body calls `setState`, and a statement that did not call it is kept unchanged |
| Markup.ControlAttributeNamespaced | src/bin/transform.js:122-123 | an attribute naming `if`, `elif`, `else`, `for` or `key` becomes `wx:` followed by its own name |
| Markup.EventAttributeBound | src/bin/transform.js:124-125 | an `onXxx` handler becomes `bindxxx`, lower-cased, two characters longer |
| Markup.OtherAttributeKept | src/bin/transform.js:126 | any other attribute name is kept |
| Markup.AttrNameKeepsKeyword | src/bin/transform.js:122-126 | the renamed attribute still names its directive |
| Markup.Zip | src/bin/transform.js:133-137 | unzipping the pairs gives back each list padded with `undefined` to the longer length |
| Markup.FlattenInterpolates | src/bin/transform.js:131-139 | a flattened template literal is its text pieces with each expression as a `{{name}}` binding between them |
| Markup.ExpressionValueBound | src/bin/transform.js:146-149 | an expression value becomes the string `{{expr}}` |
| Markup.HandlerValueNamed | src/bin/transform.js:143-145 | an event handler `this.f` becomes the string `f` |
| Markup.ValuelessAttribute | src/bin/transform.js:128-130 | a valueless `else` stays valueless; any other valueless plain attribute becomes `{{true}}` |
| Markup.TemplateDataFails | src/bin/transform.js:78-98 | the template data fails exactly when some attribute has no value |
| Markup.TemplateDataShorthand | src/bin/transform.js:78-98 | attributes `a={a}` give the data shorthand `a` |
| Markup.DataEntries | src/bin/transform.js:80-96 | a spread gives `...name`, a string `n: 'v'`, an identifier with the attribute's own name the shorthand, an identifier with another name nothing, any other expression `n: expr`, and a valueless attribute fails |
| Markup.TemplateDataHolds | src/bin/transform.js:78-98 | the template data holds exactly the entries the attributes give, at most one per attribute |
| Markup.TemplateInvoked | src/bin/transform.js:74-111 | a template element becomes `<template is="Name" data="{{entries joined by ', '}}">`, no longer self-closing, its children rewritten |
| Markup.StringValueKept | src/bin/transform.js:127 | a string value is kept and only the name is rewritten |
| Markup.ObjectValueBraced | src/bin/transform.js:140-142 | an object value becomes the string `{` + its concise code + `}` |
| Markup.HandlerValueUnprefixed | src/bin/transform.js:143-145 | on a `bind` attribute any non-literal, non-object value is its code with the first `this.` removed, and kept whole when it has none |
| Markup.RewriteSettles | src/bin/transform.js:73-150 | in a rewritten tree no attribute keeps an expression value or an `onXxx` name, and every element named after an imported template is a `<template>` invocation with exactly the string attributes `is` and `data`, not self-closing |
| Markup.RewritePlain | src/bin/transform.js:73-150 | a tree with nothing to rewrite is left as it was |
| Markup.Render | src/bin/transform.js:381-386 | the printed markup starts with the element's tag |
| Markup.ContainerBinding | src/bin/transform.js:114-118 | an expression child prints as `{{expr}}` |
| Routing.PropTypeName | src/bin/transform.js:11-17 | exactly the five listed `PropTypes` have a mini program type |
| Routing.JsonRoundTrip | src/bin/transform.js:185-193 | the JSON value of a literal is read back from its printed text, as `JSON.parse` reads it when the quote-fixing leaves the text intact |
| Routing.JsonEntriesRoundTrip | src/bin/transform.js:185-193 | an object literal's entries are read back with the same keys and values, in order, when the quote-fixing leaves the text intact |
| Routing.StateFieldIsData | src/bin/transform.js:163-164 | a field whose name contains `state` becomes the `data` property, in every role |
| Routing.ConfigBelongsToRole | src/bin/transform.js:184-220 | a field goes into the JSON only when its name matches the config keys of the module's role, and carries the parsed value |
| Routing.AppConfigField | src/bin/transform.js:184-193 | an app's config field is stored under its own name when its value is a literal, and fails with `NotJson` when it is not |
| Routing.PageWindowFlattened | src/bin/transform.js:204-207 | a page's `window` object is spread into the page JSON key by key |
| Routing.PageConfigField | src/bin/transform.js:194-210 | a page's config field other than `window` is stored under its own name when its value is a literal, and fails with `NotJson` when it is not |
| Routing.GameConfigField | src/bin/transform.js:211-219 | a game's config field is stored under its own name when its value is a literal, and fails with `NotJson` when it is not |
| Routing.PlainFieldKept | src/bin/transform.js:162-225 | in every role, a field that is not `state`, not a component's `defaultProps`/`propTypes` and not in the role's config list becomes a property as written |
| Routing.ComponentPropsNeedObject | src/bin/transform.js:165-183 | a component's `defaultProps` or `propTypes` that is not an object literal fails |
| Routing.WithDefaultsKeys | src/bin/transform.js:165-171 | the defaults keep the existing descriptors first |
| Routing.WithDefaultsGet | src/bin/transform.js:165-171 | a default sets the value and keeps the type; other descriptors are untouched |
| Routing.WithTypesGet | src/bin/transform.js:172-183 | a recognised type sets the type and keeps the value; an unknown one leaves the descriptor (created if missing); other descriptors are untouched |
| Routing.MethodRoutes | src/bin/transform.js:229-260 | `render` gives the markup; a lifecycle name is a property in a component and dropped elsewhere; other methods go into `methods` in a component and are properties elsewhere |
| Routing.EmittedMethodsUseSetData | src/bin/transform.js:153-160 | every method stored is the renamed one, free of `setState` |
| Routing.RenderFails | src/bin/transform.js:261-275 | `render` fails exactly when its first return has no argument or its JSX does not rewrite |
| Imports.KnownModuleRouted | src/bin/transform.js:285-317 | an import of an already-transformed module is routed by that module's type; other types keep the import unchanged |
| Imports.WnLocalsFilter | src/bin/transform.js:321-325 | a framework import keeps exactly its specifiers that name no role, and keeps all of them exactly when none names a role |
| Imports.WnLocalsOne | src/bin/transform.js:321-325 | one specifier is kept exactly when it names no role |
| Imports.WnLocalsInOrder | src/bin/transform.js:321-325 | the filter of two lists joined is the two filters joined, so the kept specifiers stay in their order |
| Imports.PackageImportFails | src/bin/transform.js:318-342 | a framework import with only role specifiers is removed; a package import fails exactly when the module id or source root is missing |
| Imports.JoinNonEmpty | src/bin/transform.js:334-337 | `path.join` never gives the empty string |
| Imports.PackagePathShape | src/bin/transform.js:334-341 | a package import is rewritten to `<dir>/<name>.js` where the base name of `<dir>` is `modules` |
| Imports.LocalImportExtension | src/bin/transform.js:343-349 | a local import gets `.js`, or its own extension doubled after a second dot, and keeps its specifiers |
| Imports.ComponentImportRecorded | src/bin/transform.js:301-310 | an imported component is recorded in `usingComponents` and as a `child` relation, and the script loses the import |
| Assembly.ParentPaths | src/bin/transform.js:392-396 | one parent path per referencing module, in order: the module's path without its extension |
| Assembly.ParentRelationsGet | src/bin/transform.js:390-396 | after the loop, each referencing module's path is a `parent` relation and every other relation is unchanged |
| Assembly.PutEachGet | src/bin/transform.js:392-396 | assigning one value to a list of keys sets exactly those keys |
| Assembly.EmittedRelation | src/bin/transform.js:399-402 | a relation whose key contains `pages` is not emitted |
| Assembly.EmittedRelationsExact | src/bin/transform.js:398-421 | a relation entry is emitted exactly when some stored relation emits it |
| Assembly.Descriptors | src/bin/transform.js:423-434 | one descriptor per property, in key order, each naming its property's type; the first property without a type makes the step fail with `UntypedProperty` |
| Assembly.DescriptorOf | src/bin/transform.js:423-434 | a property in a successful descriptor list has a type, and its type and default appear in its descriptor |
| Assembly.ExitAttrsShape | src/bin/transform.js:415-449 | the members gathered so far come first; `relations` is added exactly for a component with relations, `methods` exactly when there are methods, `properties` exactly when there are descriptors, nothing else is added, and the added ones come in the order `relations`, `methods`, `properties` |
| Assembly.ExitTailOrder | src/bin/transform.js:415-449 | the members the `exit` visitor adds are among `relations`, `methods` and `properties`, in that order |
| Assembly.KeyIndex | src/bin/transform.js:398 | a key of an object has an entry holding its value |
| Assembly.PageConfig | src/bin/transform.js:498-501 | a page always has JSON: its config fields, with `usingComponents` only when components were imported and not overridden |
| Assembly.ComponentConfig | src/bin/transform.js:491-497 | a component's JSON starts with `component: true`; `usingComponents` is the imported components' table when any were imported and absent otherwise; it holds no other entry, and neither pages nor configuration fields change it |
| Assembly.AppConfig | src/bin/transform.js:487-490 | an app or game has no JSON exactly when it has neither pages nor config; otherwise `pages` comes first and fields override it |
| Assembly.OtherRolesNoConfig | src/bin/transform.js:502 | templates and local modules have no JSON |
| Assembly.TemplatesImported | src/bin/transform.js:478-484 | every imported template gets an `<import src=...>` line; when no path holds a newline, the imports split at newlines are one line per template in import order and an empty last piece |
| Assembly.TemplateImportsText | src/bin/transform.js:478-484 | the template imports are the import lines, each ended by a newline |
| Assembly.TemplateImportLines | src/bin/transform.js:478-484 | split at newlines, the template imports are exactly the import lines in order, then an empty piece |
| Assembly.ImportedMarkupEnds | src/bin/transform.js:478-484 | the import lines go in front of the markup, which ends the text unchanged |
| Transform.RenameAll | src/bin/transform.js:153-160 | after the call visitor no top-level statement calls `setState`, and one that did not call it is kept unchanged |
| Transform.ExitNeedsTypes | src/bin/transform.js:423-434 | the `exit` step succeeds only when every component property has a type; a property without one makes it fail with `UntypedProperty` |
| Transform.ExitAttrsOf | src/bin/transform.js:373-449 | after a successful `exit` of a non-template every property has a descriptor; the members stay in front, a `properties` object is added exactly when properties were collected, `methods` exactly when component methods were, `relations` exactly when a component has relations to emit; nothing but the members and relations changes |
| Transform.VisitMembersInOrder | src/bin/transform.js:162-260 | the behaviour object keeps what it had and gains each member's property in declaration order; the `methods` object likewise gains the component methods in declaration order |
| Transform.TransformedScriptUsesSetData | src/bin/transform.js:153-160 | nothing in a produced script calls `setState` |
| Transform.TransformedMapsDistinct | src/bin/transform.js:162-350 | after the imports and after the export, the collected properties, components, templates, relations and JSON fields each hold every key once |
| Transform.TransformedKind | src/bin/transform.js:45-47 | the output type is `local_module` without a default export and the export's role otherwise |
| Transform.TransformedFiles | src/bin/transform.js:486-525 | a page and a component always have JSON, a component's starting with `component: true`; only a template lacks a script; modules without a role have no JSON; the stylesheet is the one beside the source |
| Transform.TransformedClass | src/bin/transform.js:369-371 | a role class becomes a call of its superclass on the behaviour object; any other class stays a local module with its export renamed and kept |
| Transform.RoleIsNotTemplate | src/bin/transform.js:369-370 | a role class never makes a `template` |
| Transform.TransformedTemplate | src/bin/transform.js:378-388 | a function returning JSX gives a named template whose markup ends with the `<template name=...>` element, and no script |
| Transform.TransformedComponentParents | src/bin/transform.js:390-421 | every referencing module outside `pages` is a `parent` relation of the component |
| Transform.VisitImportsKeep | src/bin/transform.js:278-350 | imports change neither the type, the behaviour members nor the name |
| Transform.VisitMembersKeepKind | src/bin/transform.js:162-276 | member visitors never change the type |
| Traversal.Visitors.constructor | src/bin/transform.js:35-47 | all accumulators start empty and the type is `local_module` |
| Traversal.Visitors.VisitImport | src/bin/transform.js:278-350 | the import visitor makes the step `Transform.ImportStep` specifies, or fails with its error and changes nothing |
| Traversal.Visitors.RecordImport | src/bin/transform.js:292-349 | the accumulators change as the routed import says |
| Traversal.Visitors.VisitField | src/bin/transform.js:162-226 | the field visitor makes the step `Transform.VisitMember` specifies, or fails and changes nothing |
| Traversal.Visitors.RecordField | src/bin/transform.js:163-225 | the accumulators change as the routed field says, the `forEach` loops over `defaultProps`, `propTypes` and `window` included |
| Traversal.Visitors.VisitMethod | src/bin/transform.js:228-276 | the method visitor makes the step `Transform.VisitMember` specifies |
| Traversal.Visitors.Enter | src/bin/transform.js:352-372 | the export's `enter` visitor sets the type as specified |
| Traversal.Visitors.Exit | src/bin/transform.js:373-459 | the export's `exit` visitor makes the step `Transform.Exit` specifies; an abort changes no field |
| Traversal.Visitors.PushExitMembers | src/bin/transform.js:436-449 | `relations`, `methods` and `properties` are appended as the shape lemma describes; nothing else changes |
| Traversal.Visitors.AddParents | src/bin/transform.js:390-396 | the relations become the parent relations of the referencing modules; nothing else changes |
| Traversal.Visitors.Finish | src/bin/transform.js:478-525 | the output is the one `Transform.Finish` assembles from the accumulators |
| Traversal.PutParents | src/bin/transform.js:392-396 | the `forEach` loop computes the parent relations |
| Traversal.EmittedOf | src/bin/transform.js:398-414 | the `forEach` loop computes the emitted relation entries |
| Traversal.DescriptorsOf | src/bin/transform.js:423-434 | the `forEach` loop computes the property descriptors, stopping at the first property without a type |
| Traversal.Run | src/bin/transform.js:28-527 | the whole traversal gives exactly `Transform.Transformed` |
| Scanning.WithoutHelper | src/bin/index.js:110 | the dependencies keep exactly those other than the bundler's helper |
| Scanning.AddRefs | src/bin/index.js:111-116 | the loop over dependencies appends the module's reverse paths as `AddReferences` specifies |
| Scanning.Scan | src/bin/index.js:105-133 | the loop over the bundle computes `ScanOf`: the table, the index and the last module as `main` |
| Scanning.ScanModulesDomain | src/bin/index.js:109-126 | the table holds exactly the listed modules other than the helper |
| Scanning.ScanModulesLast | src/bin/index.js:118-126 | a module's entry is its last listing, with the helper removed from its dependencies |
| Scanning.ScanModulesNoHelper | src/bin/index.js:109-110 | neither the table nor any dependency list mentions the helper |
| Scanning.AddReferencesExact | src/bin/index.js:111-116 | the index gains exactly `path.relative(r, id)` under each non-helper dependency `r`, appended after `r`'s earlier paths once per listing of `r` |
| Scanning.AddReferencesOrder | src/bin/index.js:111-116 | `referenced[r]` after one module is its earlier paths followed by the path to the module repeated once per listing of `r` |
| Scanning.ScanReferencedExact | src/bin/index.js:105-127 | `referenced[r]` holds exactly the relative paths to the modules that depend on `r`, in bundle order, each repeated once per listing |
| Scanning.ScanReferencedOrder | src/bin/index.js:105-127 | `referenced[r]` is, module by module in bundle order, the path from `r` to each non-helper module repeated once per listing of `r` among its dependencies |
| Writing.Files | src/bin/index.js:150-151 | one file per write, in order, each holding its data and, when `<name>.<suffix>` is a plain file name, named `<name>.<suffix>` |
| Writing.OutputFilesExact | src/bin/index.js:136-157 | a module with a type writes, under its base name in its directory, the stylesheet as `.wxss` and the markup when non-empty, the JSON when present and the script unless it is a template, in that order; a module without a type writes nothing |
| Driver.GenKeeps | src/bin/index.js:159-175 | `gen` keeps the memo sound, the order post-order and the written files the files of the memo; it only adds entries, and on success the module is in the memo |
| Driver.GenEachKeeps | src/bin/index.js:162 | the `reduce` over dependencies keeps the same invariant and, on success, transforms every dependency |
| Driver.GenFromScratch | src/bin/index.js:178-193 | from an empty memo, `gen` of `main` builds a consistent memo holding `main` |
| Driver.GenMemoised | src/bin/index.js:163-169 | a module already in a closed memo is not transformed again and nothing is written |
| Driver.GenEachMemoised | src/bin/index.js:162 | dependencies already transformed cost nothing |
| Driver.TransformedWithDependencies | src/bin/index.js:164-165 | a module is transformed with exactly its dependencies' outputs and its own `referenced` entry |
| Driver.AddKeeps | src/bin/index.js:165-166 | recording one transformed module keeps the invariant |
| Driver.Builder.constructor | src/bin/index.js:187 | the memo, the order and the written files start empty |
| Driver.Builder.WriteOutput | src/bin/index.js:136-157 | the files written are the ones `Writing.OutputFiles` gives |
| Driver.Builder.WriteEntries | src/bin/index.js:145-153 | the loop over entries writes the files `Writing.Writes` selects |
| Driver.Builder.Gen | src/bin/index.js:159-175 | the recursive walk updates the memo and writes files exactly as `GenOf` specifies |

## Left out

- Parsing with Babel, printing with `generate`, `prettifyXml`, `JSON.stringify` and the CommonJS rewrite by `transformFrom`: an expression is carried with its printed text, and the produced script is a value, not text. The rewrite at src/bin/transform.js:513-524 loads no JSX or class-properties plugin, so it can fail on a kept non-role class with fields or with JSX in a method; Transform.TransformedClass reports success there.
- The `CSS`/`WXSS` tagged-template visitor: it is defined but never installed in the traversal.
- Reading the stylesheet beside a module: file I/O. Its contents come in as `Project.styles` and `TransformInput.stylesheet`.
- `render`'s `console.error` when the method holds more than a `return`: console output only.
- `writeOutput`'s `info` line, the `error` line for a module without a type, and `mkdirp`: console output and directory creation. Written files are a sequence of (path, contents) pairs.
- `copyNodeModule`, the rollup bundling in `scan`, the watcher, the command line and `build`'s file-system checks: I/O and external tools. The bundler's module list is an input.
- The `resolved` field of the module table: nothing in the core reads it.
- `process.cwd()`: the working directory is a parameter `cwd`.
- Cycles in the module table: the source would overflow the stack. The model expects a rank that decreases along every dependency.
- Driver.GenOf: a dependency missing from the table makes the source throw a `TypeError`; the model stops with `UnknownModule` and keeps what was done.
- Writing.IsTruthy: the printed script is taken to be non-empty, which holds because the strict-mode directive is only stripped when code follows it.
- Transform.Transformed: a `TypeError` from the source (a missing module id, a `propTypes` entry that is not a member expression, a component property without a recognised type) becomes an error value instead of an exception.
- Routing.ToJson: the configuration text is printed, its `'` replaced by `"`, every `word:` quoted and the result given to `JSON.parse` (src/bin/transform.js:185-193, 195-203, 212-220). The model reads the literal's JSON value directly. It does not capture the parse failures this text rewriting causes: a string holding `'` (`"Tom's page"`), a string holding `word:` (`"Step: 1"`), or a quoted key (`{'a': 1}`). Numbers are integers only; a fraction such as `0.5` is not modelled.
- Routing.JsonRoundTrip: holds of the model's reading; the source's `JSON.parse` fails on the literals the Routing.ToJson line names.
- JsonEntriesRoundTrip (Routing.JsonEntriesRoundTrip): the same gap as Routing.JsonRoundTrip, for the entries of an object literal.
- AppConfigField (Routing.AppConfigField): the source also fails on a literal whose printed text the quote-fixing breaks (the Routing.ToJson line); the model stores such a literal.
- PageConfigField (Routing.PageConfigField): the same gap as Routing.AppConfigField, for a page's config fields.
- GameConfigField (Routing.GameConfigField): the same gap as Routing.AppConfigField, for a game's config fields.
- Assembly.TemplatesImported: the line-by-line form is stated for template paths without a newline; a path holding one splits its own line in two.
- Assembly.ParentPaths: the path without its extension is stated for relative file paths that do not end in `/`; an absolute path or one ending in `/` is reformatted by `path.format`.
- Writing.Files: the base name of each file is stated when `<name>.<suffix>` is a plain file name; a name holding `/`, or equal to `.` or `..`, is reinterpreted by `path.join`.
- OrderedMaps.Keys: JavaScript lists integer-like keys (`"0"`, `"1"`, …) before all others, in ascending order, and `JSON.parse` and `JSON.stringify` (src/bin/transform.js:503) follow that order. The model keeps first-assignment order for every key. Only keys read from parsed JSON can be integer-like, such as the indices of a page `window` that is an array or a string (Routing.ObjectKeys); identifier keys cannot.
- OrderedMaps.Put: a new integer-like key goes last in the model, not among the integer keys at the front as in JavaScript.
- PutAllKeepsPrefix (OrderedMaps.PutAllKeepsPrefix): when the source object has integer-like keys, `Object.assign` lists them ahead of the target's other keys; the model promises the target's keys first.
- Strings.ToLower: lowers only `A`–`Z`. JavaScript's `toLowerCase` lowers every Unicode letter and can change the length (`İ` becomes two characters), so a superclass `ÄPage` gets kind `Äpage` in the model and `äpage` in the source.
- The ClassProperty, ClassMethod and JSX visitors run on every class and JSX element in the file, not only on the default export; a helper class with a `state` field adds to the page's `data`. The model visits only the default export's members, and visits all imports before it, while the source visits an import written after the export after it.
