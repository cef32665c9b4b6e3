# File-system router, dev server and UI elements: a Dafny model

This project models the core of a small Deno web framework in Dafny:

- **Route walker** (`Walker`, lib/routing.ts `navigateRoutes`). It turns a directory listing into a route tree.
  - `index.*` becomes the route's default page.
  - `__layout.*` and `__layout.override.*` become its layout.
  - `__error.*` becomes its error page.
  - Every other file becomes a page subroute, and every directory a nested route.
- **Page patterns** (`PageRegex`, `makePageRegex`). Every `[name]` token of a route name is replaced by a capture group, and the names are collected in order.
- **Import table** (`ImportTable`, `importMap`, `mapCount` and `safeGetSetImport`). Each module path gets one identifier: a prefix followed by the number of paths registered before it.
- **Method discovery** (`Exports`, `getExportedMethods`). The export names of a module become the HTTP methods it answers, plus a flag for a default export.
- **Endpoint builder** (`Endpoints`, `MakeEndpoints`). A depth-first walk of the route tree yields one endpoint per page, with its pattern, its parameters, its layout chain and its module identifier.
- **Route-file generator** (`Serializer`, `serializeEndpoints`). It writes the import block and the `routes` array of the generated file.
- **Development server** (`Dev`, lib/dev.ts). The `Endpoints` buckets hold one list per method. The registration loop fills them and `pushRoute` appends to them. The request handler answers with the first matching entry of the request method's bucket.
- **Scoped UI elements** (`LibUi`, lib/ui.ts):
  - `Element`, `Paragraph`, `List` and `Container`, as one class with a kind;
  - the `Context` that collects scoped styles and emits the HTML document.
- **Plain UI elements** (`RootUi`, ui.ts). The older element tree without ids or styles, as a datatype.

State that the source changes in place is modelled that way, as classes with `modifies` clauses:
- `ImportTable.ImportMap` holds the import table;
- `Dev.Server` holds the buckets;
- `LibUi.Context` and `LibUi.Element` hold the UI state.

Each method with a loop is proved equal to a specification function. The lemmas state what those functions guarantee. `Text` holds the shared string helpers: `Join`, `Split`, `Trim`, `Decimal`, ASCII case mapping and `path.join`.

Three behaviours of the code worth noting:
- `makePageRegex` keeps scanning after each `[name]` token, so every token of a name becomes a capture group. It does not stop after the first one.
- The capture group it inserts is the literal text `(\[\w+\])`, which matches the bracketed token itself, and the model keeps that text.
- A page file's endpoint always gets the default error renderer. The walker stores an error page only as `{ path }`, so `root.error?.default` is always undefined.

## Model

| member | source | states |
|---|---|---|
| Walker.LastIndexOf | lib/routing.ts:76 | the index of the last occurrence of a character (or -1), with no occurrence after it; this is where `parse(name).name` cuts off the extension |
| Walker.StepFields | lib/routing.ts:69-111 | one directory entry changes exactly one field. `index` sets the default page, the two layout names set a nested or override layout, and `__error` sets the error page; any other entry appends its subroute. Name, path and isDir never change |
| Walker.WalkFields | lib/routing.ts:62-112 | after the first n entries, the route has the walked name and path and `isDir == (pathName == "/")`. The default page, layout and error page are the last ones listed, and the subroutes are the children of all n entries, in order |
| Walker.ReservedNotChild | lib/routing.ts:81-104 | a file adds no subroute exactly when its base name is `index`, `__layout`, `__layout.override` or `__error` |
| Walker.WalkHasSubroutes | lib/routing.ts:62-67 | a walked route always has a subroute list |
| Walker.ChildShape | lib/routing.ts:101-111 | a page file child is a leaf (no subroutes and no isDir), and a directory child is a directory route with `isDir` true and a subroute list |
| Walker.ChildrenShape | lib/routing.ts:69-112 | every subroute produced by the walk has that shape |
| Walker.NavigateRoutes | lib/routing.ts:58-115 | the walk equals the specification `Walk`; the root has `isDir == (pathName == "/")` and a subroute list |
| PageRegex.WordRunFacts | lib/routing.ts:142 | `\w+` takes the maximal run of word characters |
| PageRegex.TokenLenSound | lib/routing.ts:142 | a token length found at a position is a `[`, one or more word characters and a `]` |
| PageRegex.TokenLenComplete | lib/routing.ts:142 | any such token at a position has exactly the length found there |
| PageRegex.NoTokenInside | lib/routing.ts:142 | no token starts strictly inside another |
| PageRegex.FindTokenLeftmost | lib/routing.ts:141-145 | `str.match` reports a token at its index, and no token starts before it |
| PageRegex.FindTokenShift | lib/routing.ts:141-142 | searching the suffix `name.substring(i)` from k is searching the name from i + k, with the index shifted by i |
| PageRegex.PlainName | lib/routing.ts:154-156 | a name without tokens is its own pattern and has no parameters |
| PageRegex.NamesAreWords | lib/routing.ts:146-148 | every parameter name is a nonempty run of word characters |
| PageRegex.TokenRound | lib/routing.ts:144-153 | one round with a match keeps the invariant that the built pattern and parameters plus the rest of the name give the full result |
| PageRegex.LastRound | lib/routing.ts:154-157 | the round without a match completes the pattern and the parameter list |
| PageRegex.MakePageRegex | lib/routing.ts:135-161 | the pattern is the name with every token replaced by the capture group, and the parameters are the token names in order |
| ImportTable.EmptyWellFormed | lib/routing.ts:165-166 | the empty table is consistent |
| ImportTable.GetSetWellFormed | lib/routing.ts:168-177 | afterwards the path is stored under the returned identifier. The counter grows by one exactly for a new path, no earlier entry changes, and consistency is kept |
| ImportTable.GetSetTwice | lib/routing.ts:169-176 | asking again for a registered path returns the same identifier and leaves the table as it is, whatever the prefix |
| ImportTable.AssignReturned | lib/routing.ts:222-223 | writing back the identifier just returned leaves the table unchanged |
| ImportTable.SeparatingTags | lib/routing.ts:170 | an identifier made from a prefix that ends in a non-digit, followed by a counter, ends in that counter's decimal digits after a non-digit |
| ImportTable.TagUnique | lib/routing.ts:170 | such an identifier determines its counter |
| ImportTable.PrefixesSeparate | lib/routing.ts:168 | the three prefixes in use end in a non-digit |
| ImportTable.GetSetTagged | lib/routing.ts:168-177 | every identifier in the table keeps carrying the counter value of its insertion |
| ImportTable.DistinctIds | lib/routing.ts:165-177 | in a consistent table whose identifiers carry their positions, two different paths never share an identifier |
| ImportTable.ImportMap.constructor | lib/routing.ts:165-166 | the table starts empty and consistent |
| ImportTable.ImportMap.SafeGetSetImport | lib/routing.ts:168-177 | the identifier and the new table are those of `GetSet` on the old table, and consistency is kept |
| ImportTable.ImportMap.Set | lib/routing.ts:223 | `importMap[path] = id` updates the key in place, or appends it last |
| Exports.MethodKeysExact | lib/routing.ts:186-194 | the method keys are distinct, and a method is a key exactly when some export other than `default` upper-cases to it |
| Exports.GetExportedMethods | lib/routing.ts:179-208 | the keys in first-set order, the default-export flag, and a warning exactly when both are empty |
| Exports.CaseInsensitive | lib/routing.ts:186-193 | two exports other than `default` whose names differ only in case give one key: it is present exactly when their upper-cased name is a method, and it occurs at most once |
| Endpoints.Chain | lib/routing.ts:221-230 | a nested layout is appended to the inherited chain and an override layout replaces it, using the layout's identifier from the table; without a layout, nothing changes |
| Endpoints.LeafEndpoint | lib/routing.ts:237-257 | a page file gives exactly one endpoint. It carries its name's pattern and parameters, the layout chain, the default error renderer, its module's identifier from the table, its exported methods and its default-export flag |
| Endpoints.CompileCount | lib/routing.ts:237-286 | there is exactly one endpoint per page: one per page file, plus one per directory index |
| Endpoints.CompileExtends | lib/routing.ts:210-287 | building only adds to the import table. It keeps existing identifiers and consistency, and every added identifier starts with `_` |
| Endpoints.ExtendsTrans | lib/routing.ts:279-284 | the table growth of successive subroutes composes |
| Endpoints.CompileImported | lib/routing.ts:210-287 | every module and layout identifier of every endpoint is in the final import table |
| Endpoints.CompileTagged | lib/routing.ts:210-287 | every `safeGetSetImport` call of the walk uses `__LAYOUT__` or `__PAGE__`, so compiling keeps each identifier tagged with its path's position in the table |
| Endpoints.CompiledIdsDistinct | lib/routing.ts:165-287 | compiling a route tree from the empty import table gives two different module paths two different identifiers, so no two `import * as ID` lines share an `ID` |
| Endpoints.InheritedLayoutsKept | lib/routing.ts:225-229 | without override layouts, every endpoint's chain starts with the inherited chain |
| Endpoints.ComputeLayouts | lib/routing.ts:216-230 | the computed chain and table are those of `Chain` |
| Endpoints.MakePage | lib/routing.ts:238-256 | one page endpoint and table are those of the specification |
| Endpoints.MakeEndpoints | lib/routing.ts:210-287 | the endpoints and the final table are those of `Compile` |
| Endpoints.MakeSubEndpoints | lib/routing.ts:279-284 | the subroutes' endpoints are concatenated in order, threading the table |
| Serializer.OpensNest | lib/routing.ts:294-299 | the opening calls of all layouts, then `slot`, then as many `)` as layouts, is the nested call chain |
| Serializer.LayoutString | lib/routing.ts:294-300 | the loop's trimmed layout string is the nested call chain `L0.default(L1.default(…slot…))` |
| Serializer.NestEnds | lib/routing.ts:299 | the chain starts with the outermost identifier and ends in `)` or `t` |
| Serializer.LayoutNest | lib/routing.ts:300 | trimming never alters a chain whose first identifier does not start with a space |
| Serializer.GeneratedLayouts | lib/routing.ts:300 | for every endpoint built, `trim` leaves the layout chain unchanged |
| Serializer.TwoLayouts | lib/routing.ts:294-300 | for two layouts the first is the outer call: `A.default(B.default(slot))` |
| Serializer.RecordAt | lib/routing.ts:292-313 | the i-th record is the i-th endpoint's object literal, with its own layout chain |
| Serializer.SerializeEndpoints | lib/routing.ts:289-324 | the file is the import block, a blank line and the `routes` array of the records joined by `,\n` |
| Serializer.ImportBlockLines | lib/routing.ts:317-319 | splitting the import block at line breaks gives back exactly the import lines |
| Dev.MethodNamed | lib/dev.ts:23-33 | a name selects the bucket of the method with that name, and no bucket when no method has it |
| Dev.AddedGet | lib/dev.ts:50-88 | an endpoint adds exactly one entry to the GET bucket, even when it has a `GET` key |
| Dev.OneGetEach | lib/dev.ts:49-97 | registration adds one GET entry per endpoint, in order |
| Dev.GetEntryShape | lib/dev.ts:50-81 | the GET handler is two-step exactly when the module has a default export and a `GET` key. The content type is `text/html` exactly when it has a default export |
| Dev.AddedOther | lib/dev.ts:83-96 | another method gets one call entry per occurrence of its key |
| Dev.OccurrencesDistinct | lib/dev.ts:83 | distinct keys occur once each |
| Dev.OtherMethodEntries | lib/dev.ts:49-97 | a non-GET bucket gets one entry per endpoint declaring that method, in endpoint order |
| Dev.Server.constructor | lib/dev.ts:23-33 | every method's bucket starts empty |
| Dev.Server.PushRoute | lib/dev.ts:35-43 | the entry is appended to its method's bucket, and the others do not change |
| Dev.Server.RegisterOne | lib/dev.ts:50-96 | one endpoint's GET entry, then a call entry per other method key, are appended |
| Dev.Server.Register | lib/dev.ts:49-97 | every bucket grows by exactly the entries of all endpoints, in order |
| Dev.Server.Handle | lib/dev.ts:102-152 | the handler's answer is `Dispatch` on the current buckets, a throw included when the called `get` does not exist, when the loader's headers cannot be iterated, or when the status modulo 2^16 is refused |
| Dev.FirstMatch | lib/dev.ts:105-112 | the chosen entry matches, and no earlier one does |
| Dev.UnknownMethodThrows | lib/dev.ts:105 | a request method without a bucket makes the handler throw |
| Dev.FirstMatchAnswers | lib/dev.ts:105-149 | the first matching entry answers the request |
| Dev.NoMatchNotFound | lib/dev.ts:151 | with no matching entry, the answer is 404 `404 not found` |
| Dev.AnswerShape | lib/dev.ts:120-148 | a single handler throws exactly when the function it calls does not exist, and otherwise answers 200 with the content type. A two-step handler throws when its loader does not exist; it throws when the loader's headers are not iterable (a plain record, say). Otherwise a two-step handler answers with the loader's status (200 when absent or 0) reduced modulo 2^16 as an `unsigned short`, with the content type followed by the loader's headers and with the rendered props; a reduced status the Response constructor refuses throws |
| Dev.StatusPeriodic | lib/dev.ts:137-148 | a loader status and the same status plus 2^16 reach the Response constructor as the same number, so 65736 answers 200 |
| Dev.MissingGetThrows | lib/dev.ts:72-81 | without a default export, the GET entry throws exactly when the module has no `GET` key, since it calls the undefined `module.get`; with a default export and no `GET` key it answers |
| Dev.BundleOverride | lib/dev.ts:130-134 | the loader gets `headers` and `url`, and route parameters of the same names override them |
| Dev.RouteParamsAt | lib/dev.ts:116-118 | a parameter is bound to the group after its last position in the list |
| Dev.RepeatedNameLaterWins | lib/dev.ts:116-118 | a repeated parameter name takes the later group |
| Dev.ParamsStep | lib/dev.ts:116-118 | one assignment of the loop extends the parameter record by the next name |
| Dev.LastIndex | lib/dev.ts:116-118 | the last position of a name, with no occurrence after it |
| Dev.RegisteredNext | lib/dev.ts:49-97 | one pass of the registration loop extends every bucket by that endpoint's entries |
| LibUi.ScopeLength | lib/ui.ts:38 | the scoped style is longer than the style by the length of `id_` per rewritten selector |
| LibUi.ScopeAt | lib/ui.ts:38 | each character of the style is in the scoped style, shifted right by the length of `id_` per selector rewritten before it, and `id_` follows every selector the scan rewrites |
| LibUi.ScopeKeeps | lib/ui.ts:38 | every character of the style is in the scoped style, in order, at its shifted place |
| LibUi.ScopeNoSelector | lib/ui.ts:38 | a style with no `.` or `#` is left as it is |
| LibUi.ScopeEmpty | lib/ui.ts:38-39 | the scoped style is empty exactly when the style is |
| LibUi.ParagraphSize | lib/ui.ts:73-84 | a sized paragraph's output is the unsized output with the `style` attribute inserted after `<p id=ID ` |
| LibUi.ContainerClasses | lib/ui.ts:120-123 | a container's tag starts `<div  id=ID `, and the next character is `>` exactly when it has no classes |
| LibUi.EmptyList | lib/ui.ts:100-104 | an empty list outputs the empty string and registers no style, even its own |
| LibUi.ContainerStyleFirst | lib/ui.ts:118-125 | a container's own nonempty style is registered before its children's |
| LibUi.Context.constructor | lib/ui.ts:33-35 | head and styles start empty |
| LibUi.Context.AddStyle | lib/ui.ts:37-42 | the scoped style is appended when it is defined and nonempty, and nothing else changes |
| LibUi.Context.Emit | lib/ui.ts:44-62 | the document embeds the head, every style the root's emit collected, and the root's output (`undefined` for a base element) |
| LibUi.Element.constructor | lib/ui.ts:3-12 | a base element with its id, no text, style, classes or children |
| LibUi.Element.Paragraph | lib/ui.ts:68-71 | a paragraph with its text and no size |
| LibUi.Element.List | lib/ui.ts:94-98 | a list whose children are the given elements, with no text, styles, classes or size; its tree's children are the given elements' trees |
| LibUi.Element.Container | lib/ui.ts:113-116 | a container whose children are the given elements, with no text, styles, classes or size; its tree's children are the given elements' trees |
| LibUi.Element.AddClass | lib/ui.ts:22-25 | appends `id_name` to the classes, returns the element itself and changes nothing else |
| LibUi.Element.Styled | lib/ui.ts:27-30 | sets the style, returns the element itself and changes nothing else |
| LibUi.Element.Sized | lib/ui.ts:73-77 | sets the paragraph's size, returns it and changes nothing else |
| LibUi.Element.Emit | lib/ui.ts:18-20 | the output is `Render` of the element tree before the call. The context's styles grow by exactly the element's own scoped style (except for a list) followed by those of its children, in order |
| LibUi.Element.EmitChildren | lib/ui.ts:101-103 | the children's outputs in order (undefined as empty), having registered their styles in order |
| LibUi.PrefixNext | lib/ui.ts:123-125 | emitting one more child appends its output and its styles |
| RootUi.Emits | ui.ts:40 | the i-th output is the i-th child's |
| RootUi.ConstructEmit | ui.ts:4-24 | `construct` and `emit` agree on base elements and paragraphs, and `construct` is nonempty only for a paragraph |
| RootUi.EmptyOutput | ui.ts:39-57 | a list outputs the empty string, and a container `<div></div>`, exactly when it has no item or one item that outputs nothing |
| RootUi.ContainerWrapsList | ui.ts:39-57 | a container outputs its children as a list would, wrapped in `<div>` and `</div>` |
| RootUi.SingleItem | ui.ts:39-41 | a list of one element outputs that element |
| RootUi.ListAppend | ui.ts:39-41 | the output of two nonempty lists appended is theirs joined by a space |
| RootUi.ParagraphText | ui.ts:22-24 | a paragraph outputs its text between `<p>` and `</p>` |

## Left out

- Directory reading (`Deno.readDir`) is not modelled. The listing is a value: a sequence of entries, each a file or a non-file entry with its own listing inside it. Like the code, the model walks every non-file entry, a symbolic link included, as a directory.
- `path.join` is modelled as concatenation with one `/`, not full path normalisation (`..`, repeated slashes). `path.parse(name).name` is modelled as the text before the last `.` that is not the first character.
- Console output is not modelled: the walker's `resolved :` log, the handler's logs, and the warning of getExportedMethods. The warning is kept as a `warns` flag.
- The regular-expression engine is a parameter of the dev server (`exec` on a pattern and a path). The dev server does not rely on the page patterns having been built by `makePageRegex`. `RegExp.prototype.toString` and the source text of the error renderers are parameters of the serializer.
- Module loading (`await import`) is not modelled. A module's export names are given by a total function of its path, and a failed import is not modelled.
- The route modules' functions are not modelled. Their results (`get`, `default(...).emit()`, the layout) are parameters of the handler. The loader's props are an abstract type.
- Headers normalisation (`Headers.set`/`append` lower-casing and merging) is not modelled; headers are an ordered list. URL parsing is not modelled; the path name is a parameter. `serve` and the port are not modelled.
- Exceptions thrown by a route's own functions are not modelled; the handler has no try/catch. The handler's answer `Thrown` covers the throws the handler itself causes that the model can see: a method without a bucket, calling the missing `get` of a module without a `GET` key, loader headers that `for…of` cannot iterate, and a status the Response constructor refuses. A header name or value that `Headers.append` rejects is not modelled.
- Dev.RouteParams binds every parameter name as a key of a map. The source fills a plain object, so a parameter named `__proto__` sets the object's prototype instead of binding a key, and the loader never sees it.
- Dev.AnswerShape and Dev.Server.Handle take a module to have the lower-case function of every method key it has. An export spelled otherwise (`export function POST`, or `GET` beside a default export) gives the key but no lower-case property, so the source throws when that route is called, while the model answers.
- PageRegex.MakePageRegex returns the pattern as text; compiling it with `new RegExp` is not modelled. A name that is not valid regular-expression source (`c++`, `a(`, `a[b`) makes the source throw a SyntaxError and abort Endpoints.MakeEndpoints, while the model gives it a pattern.
- `Upper`/`Lower` map ASCII letters only, and `Trim` removes ASCII white space only, where `String.prototype.trim` also removes Unicode white space such as U+00A0 and U+FEFF. Method names, export names and layout strings outside ASCII are not modelled.
- `uniqueString(8)` ids are not modelled. An element's id is a constructor parameter.
- A List's template function is not modelled. A list holds the elements its template gives for its children.
- The `Element.context` field is not modelled; it is never read. `Element.construct` in lib/ui.ts, which always returns the empty string, is not modelled.
- LibUi.Context.AddStyle treats the element id as plain text in the replacement. A `$` in an id would be a replacement pattern in `replaceAll`, but generated ids never contain one.
- The `Decorator` classes of lib/ui.ts and ui.ts are not modelled; they are empty and unused.
