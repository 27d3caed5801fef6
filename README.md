# Bundle templates and Bundles, modelled in Dafny

This project models garden's two-stage resolver for `BundleTemplate` and `Bundle`
configurations (`core/src/config/bundle.ts`).

- `resolveBundleTemplate` compiles a template. It copies the template with
  `modules` replaced by `[]`, resolves that copy in strict mode against the
  project context and validates it. It then picks the inputs JSON schema: the
  default `{type: "object", additionalProperties: false}`, or the file named by
  `inputsSchemaPath`, which must declare `"type": "object"`. Finally it puts the
  original module specs back.
- `resolveBundle` instantiates a Bundle. It resolves and validates the Bundle and
  looks up its template by name. It validates the resolved Bundle a second time,
  with the template's inputs schema attached at `inputs`, and defaults `inputs`
  to `{}`. Then it maps every module spec of the template, in order, to a module
  config. Each spec is partially resolved and prepared. Its `generateFiles`
  source paths are resolved against the template's directory. A `path` the
  spec sets is resolved against the Bundle's directory, and the resulting
  directory is requested. Neither path is confined to that directory: `..`
  segments can leave it, because the specs are never checked against the
  schema's `subPathOnly()`. The module is stamped with the Bundle name, the
  template name and the inputs.

Files:

- `wrappers.dfy`: `Option` and `Result`.
- `strings.dfy`: JavaScript `split`, `join` and `String(n)`.
- `json.dfy`: JSON values, property reads, truthiness and template-literal rendering.
- `posix_path.dfy`: Node's `path.resolve` and `path.dirname` on POSIX.
- `bundle.dfy`: the resolver. `ResolveBundleTemplate` is a function. `ResolveBundle`
  is a method whose loop builds the module list. `MapModule` is the per-module
  mapper, and it updates the module config field by field. Both methods are proved
  equal to the specification functions `Instantiate` and `MaterializeModule`.
- `bundle_properties.dfy`: what the resolver promises, proved for every behaviour
  of the collaborators.

The collaborators are fields of the `Env` datatype: `resolveTemplateStrings`
(strict and partial), `validateWithPath`, `prepareModuleResource`, `readFile`,
`JSON.parse` and `ensureDir`. The project root and the working directory are
fields too. The properties hold for every function of the types `Env` gives
them. Those types carry some assumptions, which are listed under "Left out":
the validator returns an object, module preparation returns a typed module
config, and `ensureDir` depends on the path alone.

The unknown-template error lists `Object.keys(templates)` joined with `", "` in
key order, unsorted (core/src/config/bundle.ts:135-139; `TemplateNotFound`).

Module specs are never validated before they are mapped, because the template is
validated with `modules: []`. A spec may therefore be `null`. Reading `spec.name`
or `spec.path` on it throws a TypeError, and the model fails such a module with
that TypeError (`MaterializeModule`).

## Model

| member | source | states |
|---|---|---|
| `Bundle.ResolveBundleTemplate` | core/src/config/bundle.ts:56-113 | On success the template's `modules` is exactly the input's `modules`, and the inputs schema declares `type: "object"` |
| `Bundle.InputsJsonSchema` | core/src/config/bundle.ts:77-105 | Any inputs schema it returns has `type` equal to "object"; otherwise it fails |
| `Bundle.ResolveFrom` | core/src/config/bundle.ts:87 | `resolve(base, ...rel.split("/"))` succeeds exactly when both are strings (else a TypeError); its result is that resolution, and it is a normal absolute path when `base` is absolute |
| `Bundle.ConfigLocation` | core/src/config/bundle.ts:127 | `resolved.configPath \|\| resolved.path` throws a TypeError exactly when `resolved` is null. On an object it is `configPath \|\| path`, and on any other value undefined |
| `Bundle.TrimEnd` | core/src/config/bundle.ts:137-140 | `deline`'s final trim: the result is a prefix of the input, does not end in whitespace, and only whitespace was removed |
| `Bundle.IndexOf` | core/src/config/bundle.ts:132 | The first position holding the template name, or none exactly when no template has that name |
| `Bundle.Lookup` | core/src/config/bundle.ts:132-134 | `templates[name]` is absent exactly when `name` is not among `Object.keys(templates)`; otherwise it is a template stored under `name` |
| `Bundle.RewriteSourcePath` | core/src/config/bundle.ts:187-190 | Other fields are kept; an absent or empty `sourcePath` is kept; a non-empty one becomes its resolution against the template path, and is absolute when the template path is |
| `Bundle.RewriteFiles` | core/src/config/bundle.ts:187-190 | Succeeds exactly when every entry can be rewritten; then the same number of entries, each rewritten at its own position; a failure is a TypeError |
| `Bundle.MaterializeModule` | core/src/config/bundle.ts:166-204 | A failed partial resolution passes through. A spec that resolves to null fails with a TypeError. For any other spec, a failed preparation becomes `BundleTemplate <t> returned an invalid module (named <spec.name>) for Bundle <b>: <message>`. After a successful preparation, a file or `path` that cannot be resolved fails with a TypeError, and a failed `ensureDir` passes its error through. The module succeeds exactly when none of these steps fails. On success the config carries the Bundle name, template name and inputs, keeps the prepared fields, and has its files resolved against the template path. When the spec sets `path`, the config's path is that path resolved against the Bundle path and is the requested directory; otherwise the path is the prepared one and nothing is requested |
| `Bundle.FirstFailure` | core/src/config/bundle.ts:166-204 | When every spec before position i succeeds and spec i fails, the whole module loop fails with the error of spec i |
| `Bundle.MapModule` | core/src/config/bundle.ts:166-204 | The mapper, written as field-by-field updates of the module config, returns what `MaterializeModule` specifies: the same config and requested directory, or the same error |
| `Bundle.ResolveBundle` | core/src/config/bundle.ts:115-207 | The method succeeds exactly when `Instantiate` does. It returns the same Bundle config and the same requested directories, or the same error |
| `BundleProperties.ModulesNeverResolved` | core/src/config/bundle.ts:61-112 | Two templates that differ only in `modules` compile to the same result, apart from the `modules` each gets back. The module specs never reach the resolver or the validator |
| `BundleProperties.DefaultInputsSchema` | core/src/config/bundle.ts:77-86 | Without `inputsSchemaPath` the compiled template is the validated fields, the inputs schema `{type: "object", additionalProperties: false}` and the original modules. The result does not depend on `readFile` or `JSON.parse` |
| `BundleProperties.SchemaFileBesideConfig` | core/src/config/bundle.ts:84-87 | With `configPath` = dir/file, the schema file is read from dir/`inputsSchemaPath` |
| `BundleProperties.SchemaFileUnderPath` | core/src/config/bundle.ts:84-87 | Without a truthy `configPath`, the schema file is read from the template's `path`/`inputsSchemaPath` |
| `BundleProperties.TemplateCompileFailures` | core/src/config/bundle.ts:60-87 | A failed resolution or validation fails the template with that error unchanged. A truthy non-string `configPath` fails with a TypeError even without `inputsSchemaPath`, and so does an `inputsSchemaPath` that cannot be resolved |
| `BundleProperties.SchemaFileUnreadable` | core/src/config/bundle.ts:88-95 | A read or parse failure yields exactly `Unable to read inputs schema for BundleTemplate <name>: <error>` and no template |
| `BundleProperties.SchemaFileNotObject` | core/src/config/bundle.ts:97-104 | A parsed schema whose `type` is not "object" yields exactly `Inputs schema for BundleTemplate <name> has type <type>, but should be "object".` and no template |
| `BundleProperties.SchemaFileAccepted` | core/src/config/bundle.ts:86-112 | An object schema from the file becomes the template's inputs schema, beside the validated fields and the original modules |
| `BundleProperties.MaterializeModulesMap` | core/src/config/bundle.ts:166-204 | The module loop is an order-preserving map. It succeeds exactly when every spec does, giving one result per spec at the same position. Otherwise it fails with the error of the first failing spec |
| `BundleProperties.DirsRequested` | core/src/config/bundle.ts:192-196 | A directory is requested exactly when some module's spec set a path that resolved to it |
| `BundleProperties.PreludeFailures` | core/src/config/bundle.ts:120-166 | A failed strict resolution, first validation or second validation fails the Bundle with that error unchanged. A config that resolves to null, or a template whose `modules` is truthy but not an array, fails with a TypeError |
| `BundleProperties.TemplateNotFound` | core/src/config/bundle.ts:132-143 | After the first validation, an unknown template fails with `Bundle <name> references template <t>, which cannot be found. Available templates: <keys joined by ", ">`. The inputs are never validated against any template schema |
| `BundleProperties.InstantiateSucceeds` | core/src/config/bundle.ts:145-206 | On success the fields are the second validation of `resolved` (not of the first-pass Bundle), with the looked-up template's schema. There is one module per spec, in order (none without `modules`). Every module carries `bundle.name`, `template.name` and `bundle.inputs \|\| {}`. The requested directories are those of modules whose spec set a path |
| `BundleProperties.InstantiateFailsAtFirstModule` | core/src/config/bundle.ts:166-184 | When spec k is the first to fail, the Bundle fails with that spec's error and no partial Bundle is returned |
| `BundleProperties.SourcePathUnderTemplate` | core/src/config/bundle.ts:186-190 | A `sourcePath` of plain segments (no empty, `.` or `..` segment) resolved against a normal absolute template path becomes template path + "/" + sourcePath (e.g. `/tpl/foo/bar.txt`) |
| `BundleProperties.ModulePathUnderBundle` | core/src/config/bundle.ts:192-196 | A spec `path` of plain segments (no empty, `.` or `..` segment) resolved against a normal absolute Bundle path becomes Bundle path + "/" + path, and that directory is the one requested |
| `PosixPath.Resolve` | core/src/config/bundle.ts:189 | When the base or the working directory is absolute, the resolved path is in normal absolute form |
| `PosixPath.SplitSegmentsNeverReset` | core/src/config/bundle.ts:194 | Resolving `base` with the pieces of `rel.split("/")` never restarts at the root. A leading "/" in `rel` adds only an empty segment |
| `PosixPath.ResolveUnderBase` | core/src/config/bundle.ts:87 | Plain relative segments under a normal absolute base resolve to base + "/" + rel |
| `PosixPath.DirnameOfChild` | core/src/config/bundle.ts:84 | `dirname(dir + "/" + file)` is `dir` |
| `Strings.JoinSplit` | core/src/config/bundle.ts:87 | Joining the pieces of `split(sep)` with `sep` gives the string back |

## Left out

- The template-string engine (`resolveTemplateStrings`, `ProjectConfigContext`, `BundleConfigContext`) is not part of this model. It is an opaque field of `Env`, and the mode and the context passed to it are recorded. No property of partial resolution is assumed.
- The joi schemas (`core/src/config/bundle.ts:209-260`) and `validateWithPath` are not part of this model. The validator is an opaque function that receives the schema's name (`Schema`), with the inputs schema attached for the second pass. It returns an object or an error.
- `joi.object().jsonSchema(...)` compilation is not modelled. The compiled schema keeps the JSON schema it came from (`CompiledJsonSchema`), and a compilation failure is not modelled.
- `prepareModuleResource` is not part of this model. It is an opaque, fallible field of `Env` that returns a typed `ModuleConfig`: its `path` is a string, and its `generateFiles` is absent or a list of entries whose `sourcePath` is absent or a string. The TypeErrors the program would throw for a truthy non-array `generateFiles` (`.map`, line 187) or a non-string `sourcePath` (`.split`, line 189) therefore cannot occur in the model.
- `validateWithPath` is typed to return an object, so a validator returning any other value is not modelled.
- File I/O: `readFile`, `JSON.parse` and `ensureDir` are opaque fields of `Env`. `ensureDir` is a function of the path, so asking twice for the same directory gives the same outcome. Directory creation itself is recorded only as the list of requested paths.
- Concurrency: `Bluebird.map` is modelled as a sequential loop, so the first error is the one at the lowest position. In the program, every mapper starts before any `ensureDir` settles. So an `ensureDir` failure can be reported after a synchronous failure of a later module, and later modules may request directories after an earlier one failed.
- ResolveBundle: says nothing about the directories it returns when it fails, because under concurrency the program's directory requests after a failure do not follow the sequential order.
- `deline` is modelled only as the final trim of trailing whitespace, using the characters `String.prototype.trim` removes. Its collapsing of line breaks inside interpolated values is not modelled. The messages are the single-line strings the tests show.
- The detail objects attached to each `ConfigurationError` (`path`, `type`, `availableTemplates`, `moduleSpec`, `bundle`, `error`) are not modelled. Only the messages are.
- JavaScript's own `TypeError` (a non-string path given to `split`, `resolve` or `dirname`, a property read on null, or a truthy non-array `modules`) is modelled without its message. Bluebird would iterate a string `modules` character by character; the model treats it as a TypeError.
- Templates are a sequence of name and template pairs. A JavaScript object cannot repeat a key; if a sequence does, `Lookup` takes the first entry and the error message lists the name once per entry.
- Template lookup sees only the templates' own names. Keys inherited from `Object.prototype` (`constructor`, `toString`, ...) are not modelled. `Object.keys` puts integer-like keys first; template names are identifiers, so none occur, and the listing uses the given order.
- JSON numbers are integers. Fractions and exponents are not modelled, which matters only for how a schema `type` that is a number is rendered in a message.
- Property order of spread objects is not modelled, because objects are maps.
