/** What the Bundle resolver promises, stated over the specification functions of
    module `Bundle` for every collaborator behaviour. */
module BundleProperties {
  import opened Wrappers
  import opened Json
  import Strings
  import PosixPath
  import opened Bundle

  // ---------------------------------------------------------------------------
  // resolveBundleTemplate

  /** The module specs never reach the resolver or the validator: two templates
      that differ only in `modules` compile alike, each keeping its own specs. */
  lemma ModulesNeverResolved(env: Env, a: map<string, Json>, b: map<string, Json>)
    requires a - {"modules"} == b - {"modules"}
    ensures var ra := ResolveBundleTemplate(env, a);
            var rb := ResolveBundleTemplate(env, b);
            && (ra.Success? <==> rb.Success?)
            && (ra.Failure? ==> ra.error == rb.error)
            && (ra.Success? ==> ra.value.(modules := Get(b, "modules")) == rb.value)
  {
    var pa := a["modules" := JArr([])];
    var pb := b["modules" := JArr([])];
    forall k | k in pa ensures k in pb && pa[k] == pb[k] {
      if k != "modules" {
        assert k in a - {"modules"};
      }
    }
    forall k | k in pb ensures k in pa {
      if k != "modules" {
        assert k in b - {"modules"};
      }
    }
    assert pa == pb;
    assert Get(a, "configPath") == Get(b, "configPath") by {
      assert "configPath" in a <==> "configPath" in a - {"modules"};
      assert "configPath" in b <==> "configPath" in b - {"modules"};
    }
    assert Get(a, "path") == Get(b, "path") by {
      assert "path" in a <==> "path" in a - {"modules"};
      assert "path" in b <==> "path" in b - {"modules"};
    }
    assert Location(a) == Location(b);
    assert ValidatedTemplate(env, a) == ValidatedTemplate(env, b);
    assert ConfigDir(a) == ConfigDir(b);
  }

  /** Without `inputsSchemaPath` the inputs schema is the default object schema
      with no additional properties, and no file is read: the result does not
      depend on `readFile` or `JSON.parse`. */
  lemma DefaultInputsSchema(env: Env, resource: map<string, Json>, validated: map<string, Json>,
                            readFile: string -> Result<string, JsError>, parseJson: string -> Result<Json, JsError>)
    requires ValidatedTemplate(env, resource) == Success(validated)
    requires !TruthyOption(Get(validated, "inputsSchemaPath"))
    requires ConfigDir(resource).Success?
    ensures ResolveBundleTemplate(env, resource)
            == Success(TemplateConfig(validated - {"inputsSchema", "modules"},
                                      CompiledJsonSchema(JObj(map["type" := JStr("object"),
                                                                  "additionalProperties" := JBool(false)])),
                                      Get(resource, "modules")))
    ensures ResolveBundleTemplate(env.(readFile := readFile, parseJson := parseJson), resource)
            == ResolveBundleTemplate(env, resource)
  {
  }

  /** The inputs schema file is `inputsSchemaPath` resolved in the directory of the
      template's config file. */
  lemma SchemaFileBesideConfig(env: Env, resource: map<string, Json>, dir: string, file: string, rel: string)
    requires Get(resource, "configPath") == Some(JStr(dir + "/" + file))
    requires PosixPath.IsNormalAbsolute(dir) && dir != "/" && dir[|dir| - 1] != '/'
    requires file != "" && '/' !in file
    requires PosixPath.AllPlain(Strings.Split(rel, '/'))
    ensures ConfigDir(resource) == Success(Some(JStr(dir)))
    ensures ResolveFrom(env, Some(JStr(dir)), Some(JStr(rel))) == Success(dir + "/" + rel)
  {
    PosixPath.DirnameOfChild(dir, file);
    PosixPath.ResolveUnderBase(env.cwd, dir, rel);
  }

  /** Without a truthy `configPath` the inputs schema file is `inputsSchemaPath`
      resolved in the template's own `path`. */
  lemma SchemaFileUnderPath(env: Env, resource: map<string, Json>, dir: string, rel: string)
    requires !TruthyOption(Get(resource, "configPath"))
    requires Get(resource, "path") == Some(JStr(dir))
    requires PosixPath.IsNormalAbsolute(dir) && dir != "/"
    requires PosixPath.AllPlain(Strings.Split(rel, '/'))
    ensures ConfigDir(resource) == Success(Some(JStr(dir)))
    ensures ResolveFrom(env, Some(JStr(dir)), Some(JStr(rel))) == Success(dir + "/" + rel)
  {
    PosixPath.ResolveUnderBase(env.cwd, dir, rel);
  }

  /** Where a template compile fails before the inputs schema is read: a failure of
      the strict resolution or of the validation passes through unchanged, and a
      truthy `configPath` that is not a string throws a TypeError even without
      `inputsSchemaPath`; with `inputsSchemaPath`, a schema path that cannot be
      resolved throws a TypeError. */
  lemma TemplateCompileFailures(env: Env, resource: map<string, Json>)
    ensures var resolved := env.resolveTemplateStrings(JObj(resource["modules" := JArr([])]), ProjectContext, Strict);
            && (resolved.Failure? ==> ResolveBundleTemplate(env, resource) == Failure(Raised(resolved.error)))
            && (resolved.Success? ==>
                  var validated := env.validateWithPath(resolved.value, BundleTemplateSchema, Location(resource),
                                                        env.projectRoot, TemplateKind);
                  && (validated.Failure? ==> ResolveBundleTemplate(env, resource) == Failure(Raised(validated.error)))
                  && (validated.Success? && TruthyOption(Get(resource, "configPath"))
                      && !Get(resource, "configPath").value.JStr? ==>
                        ResolveBundleTemplate(env, resource) == Failure(RuntimeTypeError))
                  && (validated.Success? && ConfigDir(resource).Success?
                      && TruthyOption(Get(validated.value, "inputsSchemaPath"))
                      && ResolveFrom(env, ConfigDir(resource).value, Get(validated.value, "inputsSchemaPath")).Failure? ==>
                        ResolveBundleTemplate(env, resource) == Failure(RuntimeTypeError)))
  {
  }

  /** A schema file that cannot be read or parsed fails the template, naming it
      and the underlying error. */
  lemma SchemaFileUnreadable(env: Env, resource: map<string, Json>, validated: map<string, Json>,
                             path: string, e: JsError)
    requires ValidatedTemplate(env, resource) == Success(validated)
    requires TruthyOption(Get(validated, "inputsSchemaPath"))
    requires ConfigDir(resource).Success?
    requires ResolveFrom(env, ConfigDir(resource).value, Get(validated, "inputsSchemaPath")) == Success(path)
    requires env.readFile(path).Failure? || env.parseJson(env.readFile(path).value).Failure?
    requires e == if env.readFile(path).Failure? then env.readFile(path).error
                  else env.parseJson(env.readFile(path).value).error
    ensures ResolveBundleTemplate(env, resource)
            == Failure(ConfigurationError("Unable to read inputs schema for BundleTemplate "
                                          + OptionToJsString(Get(validated, "name")) + ": " + ErrorString(e)))
  {
  }

  /** A schema file whose `type` is not "object" fails the template, naming it and
      the type found. */
  lemma SchemaFileNotObject(env: Env, resource: map<string, Json>, validated: map<string, Json>,
                            path: string, schema: Json)
    requires ValidatedTemplate(env, resource) == Success(validated)
    requires TruthyOption(Get(validated, "inputsSchemaPath"))
    requires ConfigDir(resource).Success?
    requires ResolveFrom(env, ConfigDir(resource).value, Get(validated, "inputsSchemaPath")) == Success(path)
    requires env.readFile(path).Success? && env.parseJson(env.readFile(path).value) == Success(schema)
    requires Member(schema, "type") != Some(JStr("object"))
    ensures ResolveBundleTemplate(env, resource)
            == Failure(ConfigurationError("Inputs schema for BundleTemplate " + OptionToJsString(Get(validated, "name"))
                                          + " has type " + OptionToJsString(Member(schema, "type"))
                                          + ", but should be \"object\"."))
  {
  }

  /** An object schema read from the file becomes the template's inputs schema. */
  lemma SchemaFileAccepted(env: Env, resource: map<string, Json>, validated: map<string, Json>,
                           path: string, schema: Json)
    requires ValidatedTemplate(env, resource) == Success(validated)
    requires TruthyOption(Get(validated, "inputsSchemaPath"))
    requires ConfigDir(resource).Success?
    requires ResolveFrom(env, ConfigDir(resource).value, Get(validated, "inputsSchemaPath")) == Success(path)
    requires env.readFile(path).Success? && env.parseJson(env.readFile(path).value) == Success(schema)
    requires Member(schema, "type") == Some(JStr("object"))
    ensures ResolveBundleTemplate(env, resource)
            == Success(TemplateConfig(validated - {"inputsSchema", "modules"}, CompiledJsonSchema(schema),
                                      Get(resource, "modules")))
  {
  }

  // ---------------------------------------------------------------------------
  // resolveBundle: the module loop

  /** The module loop is an order-preserving map that stops at the first failing
      spec: it succeeds exactly when every spec does, then yields one result per
      spec at the same position, and otherwise fails with the error of the first
      failing spec. */
  lemma {:induction false} MaterializeModulesMap(env: Env, inst: Instantiation, ms: seq<Json>)
    ensures var r := MaterializeModules(env, inst, ms);
            && (r.Success? <==> forall i :: 0 <= i < |ms| ==> MaterializeModule(env, inst, ms[i]).Success?)
            && (r.Success? ==> |r.value| == |ms|)
            && (r.Success? ==> forall i :: 0 <= i < |ms| ==> Success(r.value[i]) == MaterializeModule(env, inst, ms[i]))
            && (r.Failure? ==>
                  exists k :: (0 <= k < |ms|
                               && MaterializeModule(env, inst, ms[k]) == Failure(r.error)
                               && forall j :: 0 <= j < k ==> MaterializeModule(env, inst, ms[j]).Success?))
    decreases |ms|
  {
    if |ms| > 0 {
      var front := ms[..|ms| - 1];
      MaterializeModulesMap(env, inst, front);
      assert forall i :: 0 <= i < |front| ==> front[i] == ms[i];
    }
  }

  /** The directories asked for are those of the modules whose spec sets a path. */
  lemma {:induction false} DirsRequested(ps: seq<Materialized>)
    ensures forall d :: d in Dirs(ps) <==> exists i :: 0 <= i < |ps| && ps[i].ensuredDir == Some(d)
    decreases |ps|
  {
    if |ps| > 0 {
      var front := ps[..|ps| - 1];
      DirsRequested(front);
      assert forall i :: 0 <= i < |front| ==> front[i] == ps[i];
    }
  }

  // ---------------------------------------------------------------------------
  // resolveBundle: the whole

  /** An unknown template fails the Bundle after the first validation, before any
      validation of the inputs, listing the available templates in key order. */
  lemma TemplateNotFound(env: Env, config: map<string, Json>, templates: seq<(string, TemplateConfig)>,
                         resolved: Json, location: Option<Json>, bundle: map<string, Json>)
    requires env.resolveTemplateStrings(JObj(config), ProjectContext, Strict) == Success(resolved)
    requires ConfigLocation(resolved) == Success(location)
    requires env.validateWithPath(resolved, BundleSchema, location, env.projectRoot, BundleKind) == Success(bundle)
    requires OptionToJsString(Get(bundle, "template")) !in Names(templates)
    ensures Instantiate(env, config, templates)
            == Failure(ConfigurationError(TrimEnd(
                 "Bundle " + OptionToJsString(Get(bundle, "name")) + " references template "
                 + OptionToJsString(Get(bundle, "template")) + ", which cannot be found. Available templates: "
                 + Strings.Join(Names(templates), ", "))))
  {
  }

  /** Where a Bundle fails before its modules are mapped: a failure of the strict
      resolution or of either validation passes through unchanged, a config that
      resolves to null throws a TypeError when its `configPath` is read, and so
      does a template whose `modules` is truthy but not an array. */
  lemma PreludeFailures(env: Env, config: map<string, Json>, templates: seq<(string, TemplateConfig)>)
    ensures var resolved := env.resolveTemplateStrings(JObj(config), ProjectContext, Strict);
            && (resolved.Failure? ==> Instantiate(env, config, templates) == Failure(Raised(resolved.error)))
            && (resolved == Success(JNull) ==> Instantiate(env, config, templates) == Failure(RuntimeTypeError))
            && (resolved.Success? && !resolved.value.JNull? ==>
                  var location := ConfigLocation(resolved.value).value;
                  var first := env.validateWithPath(resolved.value, BundleSchema, location, env.projectRoot, BundleKind);
                  && (first.Failure? ==> Instantiate(env, config, templates) == Failure(Raised(first.error)))
                  && (first.Success? ==>
                        var template := Lookup(templates, OptionToJsString(Get(first.value, "template")));
                        template.Some? ==>
                          var second := env.validateWithPath(resolved.value,
                                                             BundleSchemaWithInputs(template.value.inputsSchema),
                                                             location, env.projectRoot, BundleKind);
                          second.Failure? ==> Instantiate(env, config, templates) == Failure(Raised(second.error))))
            && (ValidatedBundle(env, config, templates).Success? ==>
                  var modules := ValidatedBundle(env, config, templates).value.template.modules;
                  TruthyOption(modules) && !modules.value.JArr? ==>
                    Instantiate(env, config, templates) == Failure(RuntimeTypeError))
  {
  }

  /** A successful Bundle: its fields are those of the SECOND validation of the
      strictly resolved config; its modules are the template's specs
      materialized one for one and in order (none when the template has no
      `modules`); every module carries the Bundle's name, the template's name and
      the Bundle's `inputs || {}`; and the directories requested are the paths of
      modules whose spec set one. */
  lemma InstantiateSucceeds(env: Env, config: map<string, Json>, templates: seq<(string, TemplateConfig)>)
    requires Instantiate(env, config, templates).Success?
    ensures var out := Instantiate(env, config, templates).value;
            var inst := ValidatedBundle(env, config, templates).value;
            var resolved := env.resolveTemplateStrings(JObj(config), ProjectContext, Strict).value;
            var specs := TemplateModules(inst.template.modules).value;
            && ValidatedBundle(env, config, templates).Success?
            && env.resolveTemplateStrings(JObj(config), ProjectContext, Strict).Success?
            && TemplateModules(inst.template.modules).Success?
            && ConfigLocation(resolved).Success?
            && var location := ConfigLocation(resolved).value;
            && Some(inst.template) == Lookup(templates, OptionToJsString(Get(
                 env.validateWithPath(resolved, BundleSchema, location, env.projectRoot, BundleKind).value,
                 "template")))
            && Success(inst.bundle) == env.validateWithPath(resolved, BundleSchemaWithInputs(inst.template.inputsSchema),
                                                            location, env.projectRoot, BundleKind)
            && out.config.fields == inst.bundle - {"modules"}
            && (!TruthyOption(inst.template.modules) ==> out.config.modules == [] && out.requestedDirs == [])
            && |out.config.modules| == |specs|
            && (forall i :: 0 <= i < |specs| ==>
                  MaterializeModule(env, inst, specs[i]).Success?
                  && out.config.modules[i] == MaterializeModule(env, inst, specs[i]).value.config)
            && (forall i :: 0 <= i < |specs| ==>
                  && out.config.modules[i].bundleName == Get(out.config.fields, "name")
                  && out.config.modules[i].bundleTemplateName == Get(inst.template.fields, "name")
                  && out.config.modules[i].inputs == Some(DefaultInputs(Get(out.config.fields, "inputs"))))
            && (forall d :: d in out.requestedDirs <==>
                  exists i :: 0 <= i < |specs| && MaterializeModule(env, inst, specs[i]).value.ensuredDir == Some(d))
  {
    var inst := ValidatedBundle(env, config, templates).value;
    var specs := TemplateModules(inst.template.modules).value;
    var done := MaterializeModules(env, inst, specs);
    MaterializeModulesMap(env, inst, specs);
    DirsRequested(done.value);
    var out := Instantiate(env, config, templates).value;
    assert out.config.modules == Configs(done.value);
    assert Get(out.config.fields, "name") == Get(inst.bundle, "name");
    assert Get(out.config.fields, "inputs") == Get(inst.bundle, "inputs");
    forall i | 0 <= i < |specs|
      ensures MaterializeModule(env, inst, specs[i]).Success?
      ensures out.config.modules[i] == MaterializeModule(env, inst, specs[i]).value.config
    {
      assert Success(done.value[i]) == MaterializeModule(env, inst, specs[i]);
    }
    forall d | d in out.requestedDirs
      ensures exists i :: 0 <= i < |specs| && MaterializeModule(env, inst, specs[i]).value.ensuredDir == Some(d)
    {
      var i :| 0 <= i < |done.value| && done.value[i].ensuredDir == Some(d);
      assert Success(done.value[i]) == MaterializeModule(env, inst, specs[i]);
    }
    forall d | exists i :: 0 <= i < |specs| && MaterializeModule(env, inst, specs[i]).value.ensuredDir == Some(d)
      ensures d in out.requestedDirs
    {
      var i :| 0 <= i < |specs| && MaterializeModule(env, inst, specs[i]).value.ensuredDir == Some(d);
      assert Success(done.value[i]) == MaterializeModule(env, inst, specs[i]);
    }
  }

  /** A spec that fails fails the Bundle: with the error of the first failing spec,
      and with no partial Bundle. */
  lemma InstantiateFailsAtFirstModule(env: Env, config: map<string, Json>, templates: seq<(string, TemplateConfig)>,
                                      inst: Instantiation, specs: seq<Json>, k: nat)
    requires ValidatedBundle(env, config, templates) == Success(inst)
    requires TemplateModules(inst.template.modules) == Success(specs)
    requires k < |specs| && MaterializeModule(env, inst, specs[k]).Failure?
    requires forall j :: 0 <= j < k ==> MaterializeModule(env, inst, specs[j]).Success?
    ensures Instantiate(env, config, templates) == Failure(MaterializeModule(env, inst, specs[k]).error)
  {
    MaterializeModulesMap(env, inst, specs);
    MaterializeModulesMap(env, inst, specs[..k]);
    assert forall j :: 0 <= j < k ==> specs[..k][j] == specs[j];
    FirstFailure(env, inst, specs, k);
  }

  // ---------------------------------------------------------------------------
  // Paths

  /** A generated file's source path made of plain segments (no "", "." or "..")
      ends up under the template's directory: "foo/bar.txt" against "/tpl" is
      "/tpl/foo/bar.txt". */
  lemma SourcePathUnderTemplate(env: Env, templatePath: string, rel: string, others: map<string, Json>)
    requires PosixPath.IsNormalAbsolute(templatePath) && templatePath != "/"
    requires PosixPath.AllPlain(Strings.Split(rel, '/'))
    ensures RewriteSourcePath(env, Some(JStr(templatePath)), GenerateFile(Some(rel), others))
            == Success(GenerateFile(Some(templatePath + "/" + rel), others))
  {
    PosixPath.ResolveUnderBase(env.cwd, templatePath, rel);
  }

  /** A module spec's `path` made of plain segments (no "", "." or "..") ends up
      under the Bundle's directory, and that directory is the one requested. */
  lemma ModulePathUnderBundle(env: Env, inst: Instantiation, m: Json, bundlePath: string, rel: string)
    requires Get(inst.bundle, "path") == Some(JStr(bundlePath))
    requires PosixPath.IsNormalAbsolute(bundlePath) && bundlePath != "/"
    requires ResolveSpec(env, inst, m).Success? && Member(ResolveSpec(env, inst, m).value, "path") == Some(JStr(rel))
    requires PosixPath.AllPlain(Strings.Split(rel, '/'))
    requires MaterializeModule(env, inst, m).Success?
    ensures MaterializeModule(env, inst, m).value.config.path == bundlePath + "/" + rel
    ensures MaterializeModule(env, inst, m).value.ensuredDir == Some(bundlePath + "/" + rel)
  {
    PosixPath.ResolveUnderBase(env.cwd, bundlePath, rel);
  }
}
