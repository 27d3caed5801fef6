/** The two-stage Bundle resolver of garden's `core/src/config/bundle.ts`.

    A `BundleTemplate` is compiled once by `ResolveBundleTemplate`: every field
    except `modules` is resolved against the project context and validated, the
    inputs JSON schema is chosen (a default, or a file next to the template's
    config), and the raw module specs are put back untouched.

    A `Bundle` is instantiated by `ResolveBundle`: it is resolved and validated,
    its template is looked up by name, it is validated again with the template's
    inputs schema attached at `inputs`, and then every module spec of the template
    is partially resolved, prepared, has its paths rewritten and is stamped with
    the Bundle's metadata.

    The template-string engine, the schema validator, module preparation and the
    file system are collaborators, supplied as functions in an `Env`. */
module Bundle {
  import opened Wrappers
  import opened Json
  import Strings
  import PosixPath

  const TemplateKind := "BundleTemplate"
  const BundleKind := "Bundle"

  // ---------------------------------------------------------------------------
  // Errors

  /** A JavaScript exception thrown by a collaborator: its `name` and `message`. */
  datatype JsError = JsError(name: string, message: string)

  /** What `resolveBundleTemplate` and `resolveBundle` can throw. */
  datatype Error =
    | ConfigurationError(message: string)  // built and thrown by this module
    | Raised(thrown: JsError)              // thrown by a collaborator, passed on unchanged
    | RuntimeTypeError                     // JavaScript's own TypeError: a path argument that is not a
                                           // string, or a property read on null

  /** `${error}` for an Error object: `Error.prototype.toString`. */
  function ErrorString(e: JsError): string {
    if e.name == "" then e.message
    else if e.message == "" then e.name
    else e.name + ": " + e.message
  }

  /** A collaborator's failure, passed on as it is. */
  function Raise<T>(r: Result<T, JsError>): Result<T, Error> {
    match r
    case Success(v) => Success(v)
    case Failure(e) => Failure(Raised(e))
  }

  /** The characters `String.prototype.trim` removes: the ECMAScript white space
      and line terminators (tab, line feed, vertical tab, form feed, carriage
      return, space, no-break space, byte order mark, the line and paragraph
      separators, and the Unicode space separators). */
  predicate IsSpace(c: char) {
    || c == '\t' || c == '\n' || c == '\U{000B}' || c == '\U{000C}' || c == '\r' || c == ' '
    || c == '\U{00A0}' || c == '\U{1680}' || ('\U{2000}' <= c <= '\U{200A}')
    || c == '\U{2028}' || c == '\U{2029}' || c == '\U{202F}' || c == '\U{205F}' || c == '\U{3000}'
    || c == '\U{FEFF}'
  }

  /** The trailing trim `deline` applies to the message it builds. */
  function TrimEnd(s: string): (r: string)
    ensures |r| <= |s| && r == s[..|r|]
    ensures |r| == 0 || !IsSpace(r[|r| - 1])
    ensures forall i :: |r| <= i < |s| ==> IsSpace(s[i])
    decreases |s|
  {
    if |s| == 0 || !IsSpace(s[|s| - 1]) then s else TrimEnd(s[..|s| - 1])
  }

  // ---------------------------------------------------------------------------
  // Values exchanged with the collaborators

  /** The two modes of `resolveTemplateStrings`: strict fails on an unresolvable
      reference, partial (`allowPartial: true`) leaves it as literal text. */
  datatype Mode = Strict | Partial

  /** The context template strings are resolved against: the project's
      (`ProjectConfigContext`) or a Bundle's (`BundleConfigContext`), which adds
      the Bundle name, the template name and the inputs. */
  datatype Context =
    | ProjectContext
    | BundleContext(bundleName: Option<Json>, templateName: Option<Json>, inputs: Json)

  /** `joi.object().jsonSchema(source)`: a joi schema compiled from a JSON schema. */
  datatype InputsSchema = CompiledJsonSchema(source: Json)

  /** The joi schemas the resolver validates against. */
  datatype Schema =
    | BundleTemplateSchema
    | BundleSchema
    | BundleSchemaWithInputs(inputs: InputsSchema)  // `bundleSchema().keys({ inputs })`

  /** One entry of a module's `generateFiles`. */
  datatype GenerateFile = GenerateFile(sourcePath: Option<string>, others: map<string, Json>)

  /** The `ModuleConfig` returned by `prepareModuleResource`: the fields the resolver
      writes, and all others. */
  datatype ModuleConfig = ModuleConfig(
    path: string,
    generateFiles: Option<seq<GenerateFile>>,
    bundleName: Option<Json>,
    bundleTemplateName: Option<Json>,
    inputs: Option<Json>,
    others: map<string, Json>)

  /** The project and the collaborators the resolver calls. `ensureDir` succeeds
      or fails as a function of the directory alone. */
  datatype Env = Env(
    projectRoot: string,
    cwd: string,
    resolveTemplateStrings: (Json, Context, Mode) -> Result<Json, JsError>,
    validateWithPath: (Json, Schema, Option<Json>, string, string) -> Result<map<string, Json>, JsError>,
    prepareModuleResource: (Json, Option<Json>, string) -> Result<ModuleConfig, JsError>,
    readFile: string -> Result<string, JsError>,
    parseJson: string -> Result<Json, JsError>,
    ensureDir: string -> Result<(), JsError>)

  // ---------------------------------------------------------------------------
  // JavaScript property access and path arguments

  /** A plain property read `v.key`: `v?.key`, except that reading a property of
      null throws a TypeError. */
  function Prop(v: Json, key: string): (r: Result<Option<Json>, Error>)
    ensures r.Failure? <==> v.JNull?
    ensures r.Failure? ==> r.error == RuntimeTypeError
    ensures r.Success? ==> r.value == Member(v, key)
  {
    if v.JNull? then Failure(RuntimeTypeError) else Success(Member(v, key))
  }

  /** `a || b`. */
  function Or(a: Option<Json>, b: Option<Json>): Option<Json> {
    if TruthyOption(a) then a else b
  }

  /** `resolve(base, ...rel.split(posix.sep))`. Both must be strings: `split` is
      not a method of other values, and `resolve` rejects non-string arguments. */
  function ResolveFrom(env: Env, base: Option<Json>, rel: Option<Json>): (r: Result<string, Error>)
    ensures r.Success? <==> base.Some? && base.value.JStr? && rel.Some? && rel.value.JStr?
    ensures r.Failure? ==> r.error == RuntimeTypeError
    ensures r.Success? ==>
              r.value == PosixPath.Resolve(env.cwd, [base.value.s] + Strings.Split(rel.value.s, '/'))
    ensures r.Success? && PosixPath.IsAbsolute(base.value.s) ==> PosixPath.IsNormalAbsolute(r.value)
  {
    if base.Some? && base.value.JStr? && rel.Some? && rel.value.JStr? then
      var args := [base.value.s] + Strings.Split(rel.value.s, '/');
      assert PosixPath.IsAbsolute(base.value.s) ==> PosixPath.IsAbsolute(args[0]);
      Success(PosixPath.Resolve(env.cwd, args))
    else Failure(RuntimeTypeError)
  }

  // ---------------------------------------------------------------------------
  // resolveBundleTemplate

  /** A compiled template: the validated fields, the compiled inputs schema and
      the raw module specs (`resource.modules`, which may be undefined). */
  datatype TemplateConfig = TemplateConfig(
    fields: map<string, Json>,
    inputsSchema: InputsSchema,
    modules: Option<Json>)

  /** The inputs schema of a template without `inputsSchemaPath`: an object
      with no properties. */
  const DefaultInputsJsonSchema: Json :=
    JObj(map["type" := JStr("object"), "additionalProperties" := JBool(false)])

  /** Where the validator reports a template or Bundle: `configPath || path`. */
  function Location(config: map<string, Json>): Option<Json> {
    Or(Get(config, "configPath"), Get(config, "path"))
  }

  /** `resolved.configPath || resolved.path` on the value template resolution
      returned, which need not be an object: null throws, any other non-object
      has neither property. */
  function ConfigLocation(resolved: Json): (r: Result<Option<Json>, Error>)
    ensures r.Failure? <==> resolved.JNull?
    ensures r.Failure? ==> r.error == RuntimeTypeError
    ensures r.Success? && resolved.JObj? ==> r.value == Location(resolved.fields)
    ensures r.Success? && !resolved.JObj? ==> r.value == None
  {
    var configPath :- Prop(resolved, "configPath");
    if TruthyOption(configPath) then Success(configPath) else Prop(resolved, "path")
  }

  /** The template with `modules` replaced by `[]`, resolved in strict mode against
      the project context and validated against the BundleTemplate schema. */
  function ValidatedTemplate(env: Env, resource: map<string, Json>): Result<map<string, Json>, Error> {
    var partial := resource["modules" := JArr([])];
    var resolved :- Raise(env.resolveTemplateStrings(JObj(partial), ProjectContext, Strict));
    Raise(env.validateWithPath(resolved, BundleTemplateSchema, Location(resource),
                               env.projectRoot, TemplateKind))
  }

  /** `resource.configPath ? dirname(resource.configPath) : resource.path`. */
  function ConfigDir(resource: map<string, Json>): Result<Option<Json>, Error> {
    var configPath := Get(resource, "configPath");
    if TruthyOption(configPath) then
      if configPath.value.JStr? then Success(Some(JStr(PosixPath.Dirname(configPath.value.s))))
      else Failure(RuntimeTypeError)
    else Success(Get(resource, "path"))
  }

  /** `JSON.parse((await readFile(path)).toString())`. */
  function ReadJsonFile(env: Env, path: string): Result<Json, JsError> {
    var text :- env.readFile(path);
    env.parseJson(text)
  }

  function UnreadableSchemaMessage(name: Option<Json>, e: JsError): string {
    "Unable to read inputs schema for BundleTemplate " + OptionToJsString(name) + ": " + ErrorString(e)
  }

  function SchemaTypeMessage(name: Option<Json>, schemaType: Option<Json>): string {
    "Inputs schema for BundleTemplate " + OptionToJsString(name) + " has type "
    + OptionToJsString(schemaType) + ", but should be \"object\"."
  }

  /** The inputs JSON schema: the default without `inputsSchemaPath`, else the
      file at that path against the config directory, which must declare
      `"type": "object"`. */
  function InputsJsonSchema(env: Env, validated: map<string, Json>, configDir: Option<Json>): (r: Result<Json, Error>)
    ensures r.Success? ==> Member(r.value, "type") == Some(JStr("object"))
  {
    var schemaPath := Get(validated, "inputsSchemaPath");
    if !TruthyOption(schemaPath) then Success(DefaultInputsJsonSchema)
    else
      var path :- ResolveFrom(env, configDir, schemaPath);
      match ReadJsonFile(env, path)
      case Failure(e) => Failure(ConfigurationError(UnreadableSchemaMessage(Get(validated, "name"), e)))
      case Success(schema) =>
        var schemaType := Member(schema, "type");
        if schemaType != Some(JStr("object")) then
          Failure(ConfigurationError(SchemaTypeMessage(Get(validated, "name"), schemaType)))
        else Success(schema)
  }

  /** `resolveBundleTemplate(garden, resource)`. The module specs come back exactly
      as given, and the inputs schema always describes an object. */
  function ResolveBundleTemplate(env: Env, resource: map<string, Json>): (r: Result<TemplateConfig, Error>)
    ensures r.Success? ==> r.value.modules == Get(resource, "modules")
    ensures r.Success? ==> Member(r.value.inputsSchema.source, "type") == Some(JStr("object"))
  {
    var validated :- ValidatedTemplate(env, resource);
    var configDir :- ConfigDir(resource);
    var schema :- InputsJsonSchema(env, validated, configDir);
    Success(TemplateConfig(validated - {"inputsSchema", "modules"}, CompiledJsonSchema(schema),
                           Get(resource, "modules")))
  }

  // ---------------------------------------------------------------------------
  // resolveBundle: the part before the modules

  /** The names of a templates object, in key order (`Object.keys`). A JavaScript
      object holds each key once; a sequence may repeat one, and then `Lookup`
      takes the first entry and `Names` lists the key once per entry. */
  function Names(templates: seq<(string, TemplateConfig)>): (names: seq<string>)
    ensures |names| == |templates|
    ensures forall i :: 0 <= i < |templates| ==> names[i] == templates[i].0
  {
    seq(|templates|, i requires 0 <= i < |templates| => templates[i].0)
  }

  /** The position of the first template stored under `name`. */
  function IndexOf(templates: seq<(string, TemplateConfig)>, name: string): (k: Option<nat>)
    ensures k.None? <==> forall i :: 0 <= i < |templates| ==> templates[i].0 != name
    ensures k.Some? ==> k.value < |templates| && templates[k.value].0 == name
    ensures k.Some? ==> forall j :: 0 <= j < k.value ==> templates[j].0 != name
    decreases |templates|
  {
    if |templates| == 0 then None
    else if templates[0].0 == name then Some(0)
    else
      match IndexOf(templates[1..], name)
      case None => None
      case Some(k) => Some(k + 1)
  }

  /** `templates[name]`: the template stored under `name`, if any. */
  function Lookup(templates: seq<(string, TemplateConfig)>, name: string): (r: Option<TemplateConfig>)
    ensures r.None? <==> name !in Names(templates)
    ensures r.Some? ==> (name, r.value) in templates
  {
    match IndexOf(templates, name)
    case None => None
    case Some(k) => Some(templates[k].1)
  }

  function TemplateNotFoundMessage(bundle: map<string, Json>, templates: seq<(string, TemplateConfig)>): string {
    TrimEnd("Bundle " + OptionToJsString(Get(bundle, "name")) + " references template "
            + OptionToJsString(Get(bundle, "template")) + ", which cannot be found. Available templates: "
            + Strings.Join(Names(templates), ", "))
  }

  /** `bundle.inputs || {}`. */
  function DefaultInputs(inputs: Option<Json>): Json {
    if TruthyOption(inputs) then inputs.value else JObj(map[])
  }

  /** What every module of one instantiation shares: the Bundle after its second
      validation, the template it references, and its inputs. */
  datatype Instantiation = Instantiation(bundle: map<string, Json>, template: TemplateConfig, inputs: Json)

  /** The `BundleConfigContext` built from an instantiation. */
  function InstanceContext(inst: Instantiation): Context {
    BundleContext(Get(inst.bundle, "name"), Get(inst.template.fields, "name"), inst.inputs)
  }

  /** The steps of `resolveBundle` before the module loop: strict resolution, the
      first validation, the template lookup, the second validation of `resolved`
      with the template's inputs schema, and the defaulting of `inputs`. */
  function ValidatedBundle(env: Env, config: map<string, Json>, templates: seq<(string, TemplateConfig)>)
    : Result<Instantiation, Error>
  {
    var resolved :- Raise(env.resolveTemplateStrings(JObj(config), ProjectContext, Strict));
    var location :- ConfigLocation(resolved);
    var bundle :- Raise(env.validateWithPath(resolved, BundleSchema, location, env.projectRoot, BundleKind));
    var template := Lookup(templates, OptionToJsString(Get(bundle, "template")));
    if template.None? then Failure(ConfigurationError(TemplateNotFoundMessage(bundle, templates)))
    else
      var revalidated :- Raise(env.validateWithPath(resolved, BundleSchemaWithInputs(template.value.inputsSchema),
                                                    location, env.projectRoot, BundleKind));
      Success(Instantiation(revalidated, template.value, DefaultInputs(Get(revalidated, "inputs"))))
  }

  // ---------------------------------------------------------------------------
  // resolveBundle: one module

  /** `f.sourcePath && resolve(template.path, ...f.sourcePath.split(posix.sep))`,
      spread over `f`: a non-empty source path is resolved against the template's
      directory, an absent or empty one is kept, and every other field is kept. */
  function RewriteSourcePath(env: Env, templatePath: Option<Json>, f: GenerateFile): (r: Result<GenerateFile, Error>)
    ensures r.Success? ==> r.value.others == f.others
    ensures !TruthyString(f.sourcePath) ==> r == Success(f)
    ensures TruthyString(f.sourcePath) ==>
              var p := ResolveFrom(env, templatePath, Some(JStr(f.sourcePath.value)));
              (r.Success? <==> p.Success?) && (r.Success? ==> r.value.sourcePath == Some(p.value))
    ensures TruthyString(f.sourcePath) && r.Success? && PosixPath.IsAbsolute(templatePath.value.s) ==>
              PosixPath.IsNormalAbsolute(r.value.sourcePath.value)
  {
    if TruthyString(f.sourcePath) then
      var p :- ResolveFrom(env, templatePath, Some(JStr(f.sourcePath.value)));
      Success(f.(sourcePath := Some(p)))
    else Success(f)
  }

  /** `(moduleConfig.generateFiles || []).map(...)`: every entry rewritten, in order;
      the first entry whose path cannot be resolved throws. */
  function RewriteFiles(env: Env, templatePath: Option<Json>, files: seq<GenerateFile>)
    : (r: Result<seq<GenerateFile>, Error>)
    ensures r.Success? <==> forall i :: 0 <= i < |files| ==> RewriteSourcePath(env, templatePath, files[i]).Success?
    ensures r.Success? ==> |r.value| == |files|
    ensures r.Success? ==>
              forall i :: 0 <= i < |files| ==> Success(r.value[i]) == RewriteSourcePath(env, templatePath, files[i])
    ensures r.Failure? ==> r.error == RuntimeTypeError
    decreases |files|
  {
    if |files| == 0 then Success([])
    else
      var first :- RewriteSourcePath(env, templatePath, files[0]);
      var rest :- RewriteFiles(env, templatePath, files[1..]);
      assert forall i :: 1 <= i < |files| ==> files[i] == files[1..][i - 1];
      Success([first] + rest)
  }

  /** A module config and the directory `ensureDir` was asked for, if any. */
  datatype Materialized = Materialized(config: ModuleConfig, ensuredDir: Option<string>)

  /** The template-string resolution of one module spec: partial, against the
      Bundle's context. */
  function ResolveSpec(env: Env, inst: Instantiation, m: Json): Result<Json, JsError> {
    env.resolveTemplateStrings(m, InstanceContext(inst), Partial)
  }

  /** `prepareModuleResource(spec, bundle.configPath || bundle.path, garden.projectRoot)`. */
  function PrepareModule(env: Env, inst: Instantiation, spec: Json): Result<ModuleConfig, JsError> {
    env.prepareModuleResource(spec, Location(inst.bundle), env.projectRoot)
  }

  function InvalidModuleMessage(inst: Instantiation, specName: Option<Json>, e: JsError): string {
    TrimEnd("BundleTemplate " + OptionToJsString(Get(inst.template.fields, "name"))
            + " returned an invalid module (named " + OptionToJsString(specName)
            + ") for Bundle " + OptionToJsString(Get(inst.bundle, "name")) + ": " + e.message)
  }

  /** The body of the per-module mapper of `resolveBundle`. */
  function MaterializeModule(env: Env, inst: Instantiation, m: Json): (r: Result<Materialized, Error>)
    // a failure of the partial resolution passes through
    ensures ResolveSpec(env, inst, m).Failure? ==> r == Failure(Raised(ResolveSpec(env, inst, m).error))
    // a spec that resolves to null throws a TypeError: `spec.name` or `spec.path` is read on it
    ensures ResolveSpec(env, inst, m) == Success(JNull) ==> r == Failure(RuntimeTypeError)
    // a failure of module preparation is wrapped with the template, module and Bundle names
    ensures ResolveSpec(env, inst, m).Success? && !ResolveSpec(env, inst, m).value.JNull?
            && PrepareModule(env, inst, ResolveSpec(env, inst, m).value).Failure? ==>
              var spec := ResolveSpec(env, inst, m).value;
              r == Failure(ConfigurationError(TrimEnd(
                     "BundleTemplate " + OptionToJsString(Get(inst.template.fields, "name"))
                     + " returned an invalid module (named " + OptionToJsString(Member(spec, "name"))
                     + ") for Bundle " + OptionToJsString(Get(inst.bundle, "name")) + ": "
                     + PrepareModule(env, inst, spec).error.message)))
    // a module succeeds exactly when every step after the partial resolution does
    ensures var rs := ResolveSpec(env, inst, m);
            r.Success? <==>
              && rs.Success? && !rs.value.JNull?
              && PrepareModule(env, inst, rs.value).Success?
              && RewriteFiles(env, Get(inst.template.fields, "path"),
                              PrepareModule(env, inst, rs.value).value.generateFiles.GetOr([])).Success?
              && (TruthyOption(Member(rs.value, "path")) ==>
                    var path := ResolveFrom(env, Get(inst.bundle, "path"), Member(rs.value, "path"));
                    path.Success? && env.ensureDir(path.value).Success?)
    // after a successful preparation, a `generateFiles` entry or a `spec.path` that
    // cannot be resolved throws a TypeError, and a failure of `ensureDir` passes through
    ensures var rs := ResolveSpec(env, inst, m);
            rs.Success? && !rs.value.JNull? && PrepareModule(env, inst, rs.value).Success? ==>
              var files := RewriteFiles(env, Get(inst.template.fields, "path"),
                                        PrepareModule(env, inst, rs.value).value.generateFiles.GetOr([]));
              var path := ResolveFrom(env, Get(inst.bundle, "path"), Member(rs.value, "path"));
              && (files.Failure? ==> r == Failure(RuntimeTypeError))
              && (files.Success? && TruthyOption(Member(rs.value, "path")) && path.Failure? ==>
                    r == Failure(RuntimeTypeError))
              && (files.Success? && TruthyOption(Member(rs.value, "path")) && path.Success?
                  && env.ensureDir(path.value).Failure? ==>
                    r == Failure(Raised(env.ensureDir(path.value).error)))
    // every output module carries the Bundle's metadata
    ensures r.Success? ==>
              && r.value.config.bundleName == Get(inst.bundle, "name")
              && r.value.config.bundleTemplateName == Get(inst.template.fields, "name")
              && r.value.config.inputs == Some(inst.inputs)
    // the prepared config with its files resolved against the template's directory
    // and its path, when the spec sets one, against the Bundle's directory
    ensures r.Success? ==>
              && ResolveSpec(env, inst, m).Success?
              && var spec := ResolveSpec(env, inst, m).value;
              && !spec.JNull?
              && PrepareModule(env, inst, spec).Success?
              && var prepared := PrepareModule(env, inst, spec).value;
              && r.value.config.others == prepared.others
              && r.value.config.generateFiles.Some?
              && RewriteFiles(env, Get(inst.template.fields, "path"), prepared.generateFiles.GetOr([]))
                 == Success(r.value.config.generateFiles.value)
              && (TruthyOption(Member(spec, "path")) ==>
                    && ResolveFrom(env, Get(inst.bundle, "path"), Member(spec, "path")) == Success(r.value.config.path)
                    && r.value.ensuredDir == Some(r.value.config.path))
              && (!TruthyOption(Member(spec, "path")) ==>
                    r.value.config.path == prepared.path && r.value.ensuredDir == None)
  {
    var spec :- Raise(ResolveSpec(env, inst, m));
    var prepared := PrepareModule(env, inst, spec);
    if prepared.Failure? then
      var specName :- Prop(spec, "name");
      Failure(ConfigurationError(InvalidModuleMessage(inst, specName, prepared.error)))
    else
      var files :- RewriteFiles(env, Get(inst.template.fields, "path"), prepared.value.generateFiles.GetOr([]));
      var config := prepared.value.(generateFiles := Some(files));
      var specPath :- Prop(spec, "path");
      var placed :-
        if TruthyOption(specPath) then
          var path :- ResolveFrom(env, Get(inst.bundle, "path"), specPath);
          var made :- Raise(env.ensureDir(path));
          Success(Materialized(config.(path := path), Some(path)))
        else Success(Materialized(config, None));
      Success(placed.(config := placed.config.(bundleName := Get(inst.bundle, "name"),
                                               bundleTemplateName := Get(inst.template.fields, "name"),
                                               inputs := Some(inst.inputs))))
  }

  // ---------------------------------------------------------------------------
  // resolveBundle: all modules

  /** The module mapper over a list of specs, in order; the first spec that fails
      stops the whole. */
  function MaterializeModules(env: Env, inst: Instantiation, ms: seq<Json>): Result<seq<Materialized>, Error>
    decreases |ms|
  {
    if |ms| == 0 then Success([])
    else
      var done :- MaterializeModules(env, inst, ms[..|ms| - 1]);
      var last :- MaterializeModule(env, inst, ms[|ms| - 1]);
      Success(done + [last])
  }

  function Configs(ps: seq<Materialized>): (cs: seq<ModuleConfig>)
    ensures |cs| == |ps|
  {
    seq(|ps|, i requires 0 <= i < |ps| => ps[i].config)
  }

  /** The directories `ensureDir` was asked for, in order. */
  function Dirs(ps: seq<Materialized>): seq<string>
    decreases |ps|
  {
    if |ps| == 0 then []
    else
      var last := ps[|ps| - 1];
      Dirs(ps[..|ps| - 1]) + (if last.ensuredDir.Some? then [last.ensuredDir.value] else [])
  }

  /** `template.modules || []`: a template without modules yields none. */
  function TemplateModules(modules: Option<Json>): (r: Result<seq<Json>, Error>)
    ensures !TruthyOption(modules) ==> r == Success([])
    ensures modules.Some? && modules.value.JArr? ==> r == Success(modules.value.items)
  {
    if !TruthyOption(modules) then Success([])
    else if modules.value.JArr? then Success(modules.value.items)
    else Failure(RuntimeTypeError)
  }

  /** `{ ...bundle, modules }`. */
  datatype BundleConfig = BundleConfig(fields: map<string, Json>, modules: seq<ModuleConfig>)

  /** A resolved Bundle and the directories it asked `ensureDir` for. */
  datatype Instance = Instance(config: BundleConfig, requestedDirs: seq<string>)

  /** The specification of `resolveBundle`. */
  function Instantiate(env: Env, config: map<string, Json>, templates: seq<(string, TemplateConfig)>)
    : Result<Instance, Error>
  {
    var inst :- ValidatedBundle(env, config, templates);
    var specs :- TemplateModules(inst.template.modules);
    var done :- MaterializeModules(env, inst, specs);
    Success(Instance(BundleConfig(inst.bundle - {"modules"}, Configs(done)), Dirs(done)))
  }

  /** A failure in a prefix of the specs is the failure of them all. */
  lemma {:induction false} PrefixFailure(env: Env, inst: Instantiation, ms: seq<Json>, j: nat)
    requires j <= |ms| && MaterializeModules(env, inst, ms[..j]).Failure?
    ensures MaterializeModules(env, inst, ms) == MaterializeModules(env, inst, ms[..j])
    decreases |ms|
  {
    if j == |ms| {
      assert ms[..j] == ms;
    } else {
      var front := ms[..|ms| - 1];
      assert front[..j] == ms[..j];
      PrefixFailure(env, inst, front, j);
    }
  }

  /** When every spec before `i` succeeds and spec `i` fails, the whole fails with
      the error of spec `i`. */
  lemma FirstFailure(env: Env, inst: Instantiation, ms: seq<Json>, i: nat)
    requires i < |ms|
    requires MaterializeModules(env, inst, ms[..i]).Success?
    requires MaterializeModule(env, inst, ms[i]).Failure?
    ensures MaterializeModules(env, inst, ms) == Failure(MaterializeModule(env, inst, ms[i]).error)
  {
    assert ms[..i + 1][..i] == ms[..i];
    PrefixFailure(env, inst, ms, i + 1);
  }

  /** The per-module mapper of `resolveBundle`: partial resolution, preparation,
      path rewriting, the directory request and the metadata. */
  method MapModule(env: Env, inst: Instantiation, context: Context, m: Json)
    returns (r: Result<ModuleConfig, Error>, dir: Option<string>)
    requires context == InstanceContext(inst)
    ensures var spec := MaterializeModule(env, inst, m);
            && (r.Success? <==> spec.Success?)
            && (r.Success? ==> spec.value == Materialized(r.value, dir))
            && (r.Failure? ==> r.error == spec.error)
  {
    dir := None;
    // a partial template resolution with the Bundle's context
    var spec := env.resolveTemplateStrings(m, context, Partial);
    if spec.Failure? {
      return Failure(Raised(spec.error)), dir;
    }
    var prepared := env.prepareModuleResource(spec.value, Location(inst.bundle), env.projectRoot);
    if prepared.Failure? {
      var specName := Prop(spec.value, "name");
      if specName.Failure? {
        return Failure(specName.error), dir;
      }
      return Failure(ConfigurationError(InvalidModuleMessage(inst, specName.value, prepared.error))), dir;
    }
    var moduleConfig := prepared.value;
    // resolve the file source paths against the template's directory
    var files := RewriteFiles(env, Get(inst.template.fields, "path"), moduleConfig.generateFiles.GetOr([]));
    if files.Failure? {
      return Failure(files.error), dir;
    }
    moduleConfig := moduleConfig.(generateFiles := Some(files.value));
    // a path set in the spec is resolved against the Bundle's directory, which is ensured
    var specPath := Prop(spec.value, "path");
    if specPath.Failure? {
      return Failure(specPath.error), dir;
    }
    if TruthyOption(specPath.value) {
      var path := ResolveFrom(env, Get(inst.bundle, "path"), specPath.value);
      if path.Failure? {
        return Failure(path.error), dir;
      }
      moduleConfig := moduleConfig.(path := path.value);
      dir := Some(path.value);
      var made := env.ensureDir(path.value);
      if made.Failure? {
        return Failure(Raised(made.error)), dir;
      }
    }
    // attach metadata
    moduleConfig := moduleConfig.(bundleName := Get(inst.bundle, "name"));
    moduleConfig := moduleConfig.(bundleTemplateName := Get(inst.template.fields, "name"));
    moduleConfig := moduleConfig.(inputs := Some(inst.inputs));
    r := Success(moduleConfig);
  }

  /** One more spec materialized at the end of a successful prefix. */
  lemma MaterializeStep(env: Env, inst: Instantiation, ms: seq<Json>, i: nat, done: seq<Materialized>, x: Materialized)
    requires i < |ms|
    requires MaterializeModules(env, inst, ms[..i]) == Success(done)
    requires MaterializeModule(env, inst, ms[i]) == Success(x)
    ensures MaterializeModules(env, inst, ms[..i + 1]) == Success(done + [x])
    ensures Configs(done + [x]) == Configs(done) + [x.config]
    ensures Dirs(done + [x]) == Dirs(done) + (if x.ensuredDir.Some? then [x.ensuredDir.value] else [])
  {
    assert ms[..i + 1][..i] == ms[..i];
    assert (done + [x])[..|done|] == done;
  }

  /** `Instantiate` once the prelude and the module list are known. */
  lemma InstantiateUnfold(env: Env, config: map<string, Json>, templates: seq<(string, TemplateConfig)>,
                          inst: Instantiation, specs: seq<Json>)
    requires ValidatedBundle(env, config, templates) == Success(inst)
    requires TemplateModules(inst.template.modules) == Success(specs)
    ensures var done := MaterializeModules(env, inst, specs);
            Instantiate(env, config, templates)
            == if done.Failure? then Failure(done.error)
               else Success(Instance(BundleConfig(inst.bundle - {"modules"}, Configs(done.value)), Dirs(done.value)))
  {
  }

  /** `resolveBundle(garden, config, templates)`, with the directories it asks
      `ensureDir` for. */
  method ResolveBundle(env: Env, config: map<string, Json>, templates: seq<(string, TemplateConfig)>)
    returns (r: Result<BundleConfig, Error>, ensured: seq<string>)
    ensures var spec := Instantiate(env, config, templates);
            && (r.Success? <==> spec.Success?)
            && (r.Success? ==> r.value == spec.value.config && ensured == spec.value.requestedDirs)
            && (r.Failure? ==> r.error == spec.error)
  {
    ensured := [];
    // resolve template strings for the fields
    var resolved := env.resolveTemplateStrings(JObj(config), ProjectContext, Strict);
    if resolved.Failure? {
      return Failure(Raised(resolved.error)), ensured;
    }
    // first validation, reported at `resolved.configPath || resolved.path`
    var location := ConfigLocation(resolved.value);
    if location.Failure? {
      return Failure(location.error), ensured;
    }
    var validated := env.validateWithPath(resolved.value, BundleSchema, location.value,
                                          env.projectRoot, BundleKind);
    if validated.Failure? {
      return Failure(Raised(validated.error)), ensured;
    }
    var bundle := validated.value;
    var template := Lookup(templates, OptionToJsString(Get(bundle, "template")));
    if template.None? {
      return Failure(ConfigurationError(TemplateNotFoundMessage(bundle, templates))), ensured;
    }
    // second validation, of `resolved`, with the template's inputs schema
    validated := env.validateWithPath(resolved.value, BundleSchemaWithInputs(template.value.inputsSchema),
                                      location.value, env.projectRoot, BundleKind);
    if validated.Failure? {
      return Failure(Raised(validated.error)), ensured;
    }
    bundle := validated.value;
    var inputs := DefaultInputs(Get(bundle, "inputs"));
    var context := BundleContext(Get(bundle, "name"), Get(template.value.fields, "name"), inputs);
    var inst := Instantiation(bundle, template.value, inputs);
    assert ValidatedBundle(env, config, templates) == Success(inst);

    var specs := TemplateModules(template.value.modules);
    if specs.Failure? {
      return Failure(specs.error), ensured;
    }
    var modules: seq<ModuleConfig> := [];
    ghost var done: seq<Materialized> := [];
    var i := 0;
    while i < |specs.value|
      invariant 0 <= i <= |specs.value|
      invariant MaterializeModules(env, inst, specs.value[..i]) == Success(done)
      invariant modules == Configs(done) && ensured == Dirs(done)
    {
      var m := specs.value[i];
      var moduleConfig, dir := MapModule(env, inst, context, m);
      if dir.Some? {
        ensured := ensured + [dir.value];
      }
      if moduleConfig.Failure? {
        r := Failure(moduleConfig.error);
        FirstFailure(env, inst, specs.value, i);
        InstantiateUnfold(env, config, templates, inst, specs.value);
        return;
      }
      MaterializeStep(env, inst, specs.value, i, done, Materialized(moduleConfig.value, dir));
      modules := modules + [moduleConfig.value];
      done := done + [Materialized(moduleConfig.value, dir)];
      i := i + 1;
    }
    assert specs.value[..i] == specs.value;
    InstantiateUnfold(env, config, templates, inst, specs.value);
    r := Success(BundleConfig(bundle - {"modules"}, modules));
  }
}
