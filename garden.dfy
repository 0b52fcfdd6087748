/**
  The model configuration shared by every call (`_BaseVertexMaasModelGarden`): the validator that
  resolves the family once at construction and splits Mistral names, the normaliser of call
  parameters, and the two builders of the endpoint URL.
 */
module Garden {
  import opened Wrappers
  import opened Errors
  import opened Strings
  import opened Families
  import opened Values

  /**
    A validated model: its family, the name sent as `model` in every payload, the full name the
    Mistral endpoints are addressed by, and the region and project of the endpoint.
   */
  datatype ModelConfig = ModelConfig(
    family: Family,
    modelName: string,
    fullModelName: Option<string>,
    location: string,
    project: string)

  /** What the validator guarantees a Mistral configuration: a full model name to build its path from. */
  predicate WellFormed(cfg: ModelConfig) {
    cfg.family == MISTRAL ==> cfg.fullModelName.Some?
  }

  /** A lower-cased Mistral name contains `@`, so the name it came from does too. */
  lemma MistralNameHasAt(name: string)
    requires Lower(name) in MistralModels
    ensures '@' in name
  {
    var lowered := Lower(name);
    var at := if lowered == "mistral-nemo@2407" then 12 else 13;
    assert lowered[at] == '@';
    LowerKeepsNonLetter(name, at, '@');
  }

  /**
    The configuration of a model name once its family is known: a Mistral name is split at its
    first `@`, the part before it becoming the model name (the whole name when there is no `@`)
    and the whole name the full name; a Llama name is kept as it is.
   */
  function Configure(family: Family, modelName: string, location: string, project: string): (cfg: ModelConfig)
    ensures WellFormed(cfg) && cfg.family == family && cfg.location == location && cfg.project == project
    ensures family == MISTRAL ==>
              && cfg.fullModelName == Some(modelName)
              && cfg.modelName <= modelName
              && '@' !in cfg.modelName
              && (|cfg.modelName| < |modelName| ==> modelName[|cfg.modelName|] == '@')
    ensures family == LLAMA ==> cfg.modelName == modelName && cfg.fullModelName == None
  {
    if family == MISTRAL then ModelConfig(family, Split(modelName, '@')[0], Some(modelName), location, project)
    else ModelConfig(family, modelName, None, location, project)
  }

  /**
    `validate_environment_model_garden`, with the family taken from the allow-lists alone
    (`ResolveFamily`): fails with the resolver's error, or configures the name for its family.
    Every Mistral name it accepts contains `@`, so its model name is the text before the first `@`.
   */
  function ValidateEnvironment(modelName: string, location: string, project: string): (r: Result<ModelConfig, Error>)
    ensures r.Err? <==> ResolveFamily(modelName).Err?
    ensures r.Err? ==> r.error == ResolveFamily(modelName).error
    ensures r.Ok? ==> && WellFormed(r.value)
                      && r.value.family == ResolveFamily(modelName).value
                      && r.value.location == location
                      && r.value.project == project
    ensures r.Ok? && r.value.family == MISTRAL ==>
              && r.value.fullModelName == Some(modelName)
              && r.value.modelName + "@" <= modelName
              && '@' !in r.value.modelName
    ensures r.Ok? && r.value.family == LLAMA ==>
              r.value.modelName == modelName && r.value.fullModelName == None
  {
    match ResolveFamily(modelName)
    case Err(e) => Err(e)
    case Ok(family) =>
      if family == MISTRAL then
        MistralNameHasAt(modelName);
        SplitHeadBeforeSeparator(modelName, '@');
        Ok(Configure(family, modelName, location, project))
      else
        Ok(Configure(family, modelName, location, project))
  }

  /**
    `validate_environment_model_garden` as written: the family comes from the Enum call
    (`FamilyFromValue`), which also accepts the member values "1" and "2".
   */
  function ValidateAsWritten(modelName: string, location: string, project: string): (r: Result<ModelConfig, Error>)
    ensures r.Err? <==> FamilyFromValue(modelName).Err?
    ensures r.Err? ==> r.error == FamilyFromValue(modelName).error
    ensures r.Ok? ==> r.value == Configure(FamilyFromValue(modelName).value, modelName, location, project)
    ensures modelName !in MemberValues ==> r == ValidateEnvironment(modelName, location, project)
  {
    match FamilyFromValue(modelName)
    case Err(e) => Err(e)
    case Ok(family) => Ok(Configure(family, modelName, location, project))
  }

  /**
    The validator as written accepts "2" as a Mistral model named "2" and addressed as "2",
    which no Mistral endpoint serves; the allow-lists reject it.
   */
  lemma AsWrittenAcceptsMemberValue(location: string, project: string)
    ensures ValidateAsWritten("2", location, project) == Ok(ModelConfig(MISTRAL, "2", Some("2"), location, project))
    ensures ValidateEnvironment("2", location, project).Err?
  {
    MemberValuesBypassAllowLists();
    var cfg := Configure(MISTRAL, "2", location, project);
    assert "2"[0] != '@';
    assert cfg.modelName == "2";
  }

  /** A Mistral name whose first `@` follows `stem` validates to `stem` and the whole name. */
  lemma ValidateVersioned(name: string, stem: string, location: string, project: string)
    requires ResolveFamily(name) == Ok(MISTRAL)
    requires |stem| < |name| && name[|stem|] == '@' && name[..|stem|] == stem && '@' !in stem
    ensures ValidateEnvironment(name, location, project)
            == Ok(ModelConfig(MISTRAL, stem, Some(name), location, project))
  {
    var cfg := ValidateEnvironment(name, location, project).value;
    assert forall i | 0 <= i < |stem| :: name[i] != '@' by {
      assert forall i | 0 <= i < |stem| :: name[i] == stem[i];
    }
    PrefixBeforeFirst(name, '@', cfg.modelName, |stem|);
  }

  /** "mistral-large@2407" is addressed as "mistral-large@2407" and named "mistral-large" in payloads. */
  lemma ValidateMistralLarge(location: string, project: string)
    ensures ValidateEnvironment("mistral-large@2407", location, project)
            == Ok(ModelConfig(MISTRAL, "mistral-large", Some("mistral-large@2407"), location, project))
  {
    ResolveMistralNames();
    FirstAtOf("mistral-large@2407", "mistral-large");
    ValidateVersioned("mistral-large@2407", "mistral-large", location, project);
  }

  /** The first `@` of a versioned name sits right after its 13-character stem. */
  lemma FirstAtOf(name: string, stem: string)
    requires (name, stem) in {("mistral-large@2407", "mistral-large"), ("Mistral-Large@2407", "Mistral-Large")}
    ensures |stem| == 13 && name[13] == '@' && name[..13] == stem && '@' !in stem
  {
  }

  /** The short name keeps the letter case of the requested name: only the lookup is lower-cased. */
  lemma ValidateKeepsCase(location: string, project: string)
    ensures ValidateEnvironment("Mistral-Large@2407", location, project)
            == Ok(ModelConfig(MISTRAL, "Mistral-Large", Some("Mistral-Large@2407"), location, project))
  {
    ResolveMixedCase();
    FirstAtOf("Mistral-Large@2407", "Mistral-Large");
    ValidateVersioned("Mistral-Large@2407", "Mistral-Large", location, project);
  }

  /** The parameter the Vertex endpoints do not accept. */
  const SafePrompt := "safe_prompt"

  /**
    The result of normalising `params` for a model named `modelName`: no `safe_prompt`, `model`
    set to the model name, every other key kept with its value, and no other key added.
   */
  ghost predicate IsEnrichment(params: map<string, Value>, modelName: string, r: map<string, Value>) {
    && r.Keys == params.Keys - {SafePrompt} + {"model"}
    && r["model"] == Str(modelName)
    && forall k :: k in r && k != "model" ==> k in params && r[k] == params[k]
  }

  /** The normalised parameters are determined by the input and the model name alone. */
  lemma EnrichmentIsUnique(params: map<string, Value>, modelName: string, r1: map<string, Value>, r2: map<string, Value>)
    requires IsEnrichment(params, modelName, r1) && IsEnrichment(params, modelName, r2)
    ensures r1 == r2
  {
    forall k | k in r1
      ensures r1[k] == r2[k]
    {
      if k != "model" {
        assert r1[k] == params[k] && r2[k] == params[k];
      }
    }
  }

  /**
    `_enrich_params`: works on a copy of the caller's map (a Dafny map is a value, so the caller's
    map cannot change), drops `safe_prompt` if present and sets `model` to the model name.
   */
  method EnrichParams(cfg: ModelConfig, params: map<string, Value>) returns (r: map<string, Value>)
    ensures IsEnrichment(params, cfg.modelName, r)
    ensures SafePrompt !in r && r["model"] == Str(cfg.modelName)
  {
    var copy := params;
    if SafePrompt in copy {
      copy := copy - {SafePrompt};
    }
    copy := copy["model" := Str(cfg.modelName)];
    r := copy;
  }

  const MistralPathPrefix := "publishers/mistralai/models/"
  const OpenApiPath := "openapi/chat/completions"

  /** The name of the prediction method on the Mistral endpoint, by stream mode. */
  function MistralVerb(stream: bool): string {
    if stream then "streamRawPredict" else "rawPredict"
  }

  /**
    `_get_url_part`: the path under the base URL. Mistral models are addressed by their full
    name, with a verb that depends on the stream flag; every other family uses the
    OpenAI-compatible chat completions path.
   */
  function UrlPart(cfg: ModelConfig, stream: bool): (path: string)
    requires WellFormed(cfg)
    ensures cfg.family == MISTRAL ==> path == MistralPathPrefix + (cfg.fullModelName.value + ":" + MistralVerb(stream))
    ensures cfg.family != MISTRAL ==> path == OpenApiPath
  {
    if cfg.family == MISTRAL then
      if stream then MistralPathPrefix + cfg.fullModelName.value + ":streamRawPredict"
      else MistralPathPrefix + cfg.fullModelName.value + ":rawPredict"
    else OpenApiPath
  }

  /** The path depends on the stream flag exactly when the family is Mistral. */
  lemma UrlPartStreamDependence(cfg: ModelConfig)
    requires WellFormed(cfg)
    ensures UrlPart(cfg, true) != UrlPart(cfg, false) <==> cfg.family == MISTRAL
    ensures cfg.family != MISTRAL ==> UrlPart(cfg, true) == UrlPart(cfg, false) == OpenApiPath
  {
    if cfg.family == MISTRAL {
      assert |UrlPart(cfg, true)| != |UrlPart(cfg, false)|;
    }
  }

  /** The verbs contain neither separator. */
  lemma MistralVerbPlain(stream: bool)
    ensures '/' !in MistralVerb(stream) && ':' !in MistralVerb(stream)
  {
  }

  /** Three pieces, each followed by `/`, then a rest: the `/`-join of the four. */
  lemma JoinOfFour(p0: string, p1: string, p2: string, p3: string)
    ensures (p0 + "/" + p1 + "/" + p2 + "/") + p3 == Join([p0, p1, p2, p3], '/')
  {
    var segments := [p0, p1, p2, p3];
    assert Join(segments[3..], '/') == p3;
    assert Join(segments[2..], '/') == p2 + "/" + p3;
    assert Join(segments[1..], '/') == p1 + "/" + (p2 + "/" + p3);
    assert Join(segments, '/') == p0 + "/" + Join(segments[1..], '/');
  }

  /** Three `/`-free pieces, each followed by `/`, then a `/`-free rest split back into the four. */
  lemma SplitOfFour(p0: string, p1: string, p2: string, p3: string)
    requires '/' !in p0 && '/' !in p1 && '/' !in p2 && '/' !in p3
    ensures Split((p0 + "/" + p1 + "/" + p2 + "/") + p3, '/') == [p0, p1, p2, p3]
  {
    var segments := [p0, p1, p2, p3];
    JoinOfFour(p0, p1, p2, p3);
    assert forall k | 0 <= k < |segments| :: '/' !in segments[k];
    SplitJoin(segments, '/');
  }

  /** The Mistral prefix is three `/`-free segments, each followed by `/`. */
  lemma MistralPrefixPieces()
    ensures MistralPathPrefix == "publishers" + "/" + "mistralai" + "/" + "models" + "/"
    ensures '/' !in "publishers" && '/' !in "mistralai" && '/' !in "models"
  {
  }

  /** Splitting the Mistral prefix and a `/`-free rest at `/` gives three segments and the rest. */
  lemma SplitMistralPath(last: string)
    requires '/' !in last
    ensures Split(MistralPathPrefix + last, '/') == ["publishers", "mistralai", "models", last]
  {
    MistralPrefixPieces();
    SplitOfFour("publishers", "mistralai", "models", last);
  }

  /**
    A Mistral path reads back as publisher, model, and full name followed by the verb: splitting it
    at `/` and its last segment at `:` recovers the full name and the verb of the stream mode.
   */
  lemma MistralUrlPartParses(cfg: ModelConfig, stream: bool)
    requires WellFormed(cfg) && cfg.family == MISTRAL
    requires '/' !in cfg.fullModelName.value && ':' !in cfg.fullModelName.value
    ensures Split(UrlPart(cfg, stream), '/')
            == ["publishers", "mistralai", "models", cfg.fullModelName.value + ":" + MistralVerb(stream)]
    ensures Split(cfg.fullModelName.value + ":" + MistralVerb(stream), ':')
            == [cfg.fullModelName.value, MistralVerb(stream)]
  {
    var full, verb := cfg.fullModelName.value, MistralVerb(stream);
    MistralVerbPlain(stream);
    SplitMistralPath(full + ":" + verb);
    assert full + ":" + verb == Join([full, verb], ':');
    SplitJoin([full, verb], ':');
  }

  /** `get_url`'s API version: "v1beta1" for Llama, "v1" for every other family. */
  function ApiVersion(family: Family): (v: string)
    ensures v == "v1beta1" <==> family == LLAMA
    ensures family == MISTRAL ==> v == "v1"
  {
    if family == LLAMA then "v1beta1" else "v1"
  }

  /** `get_url`: the regional base URL of the project, under the family's API version. */
  function GetUrl(cfg: ModelConfig): (url: string)
    ensures url == Join(UrlSegments(cfg), '/')
  {
    UrlPiecesAtSlashes();
    JoinOfEight("https:", "", cfg.location, "-aiplatform.googleapis.com", ApiVersion(cfg.family),
                "projects", cfg.project, "locations");
    "https://" + cfg.location + "-aiplatform.googleapis.com/" + ApiVersion(cfg.family)
      + "/projects/" + cfg.project + "/locations/" + cfg.location
  }

  /** The URL's literal pieces, cut at their slashes. */
  lemma UrlPiecesAtSlashes()
    ensures "https://" == "https:" + "/" + "" + "/"
    ensures "-aiplatform.googleapis.com/" == "-aiplatform.googleapis.com" + "/"
    ensures "/projects/" == "/" + "projects" + "/"
    ensures "/locations/" == "/" + "locations" + "/"
  {
  }

  /** The eight segments of a base URL. */
  function UrlSegments(cfg: ModelConfig): seq<string> {
    ["https:", "", cfg.location + "-aiplatform.googleapis.com", ApiVersion(cfg.family),
     "projects", cfg.project, "locations", cfg.location]
  }

  /** Eight pieces written out with their slashes are the `/`-join of the pieces. */
  lemma JoinOfEight(p0: string, p1: string, p2a: string, p2b: string, p3: string, p4: string, p5: string, p6: string)
    ensures (p0 + "/" + p1 + "/") + p2a + (p2b + "/") + p3 + ("/" + p4 + "/") + p5 + ("/" + p6 + "/") + p2a
            == Join([p0, p1, p2a + p2b, p3, p4, p5, p6, p2a], '/')
  {
    var segments := [p0, p1, p2a + p2b, p3, p4, p5, p6, p2a];
    assert Join(segments[7..], '/') == p2a;
    assert Join(segments[6..], '/') == p6 + "/" + p2a;
    assert Join(segments[5..], '/') == p5 + "/" + (p6 + "/" + p2a);
    assert Join(segments[4..], '/') == p4 + "/" + (p5 + "/" + (p6 + "/" + p2a));
    assert Join(segments[3..], '/') == p3 + "/" + Join(segments[4..], '/');
    assert Join(segments[2..], '/') == (p2a + p2b) + "/" + Join(segments[3..], '/');
    assert Join(segments[1..], '/') == p1 + "/" + Join(segments[2..], '/');
    assert Join(segments, '/') == p0 + "/" + Join(segments[1..], '/');
  }

  /** No literal segment of a base URL contains `/`. */
  lemma UrlSegmentsPlain(cfg: ModelConfig)
    requires '/' !in cfg.location && '/' !in cfg.project
    ensures forall k | 0 <= k < |UrlSegments(cfg)| :: '/' !in UrlSegments(cfg)[k]
  {
    assert '/' !in "-aiplatform.googleapis.com";
    assert '/' !in ApiVersion(cfg.family);
  }

  /**
    The base URL reads back as its parts: splitting it at `/` gives the scheme, the regional host,
    the API version, and the project and location segments, whenever the region and the project
    contain no `/`.
   */
  lemma GetUrlParses(cfg: ModelConfig)
    requires '/' !in cfg.location && '/' !in cfg.project
    ensures Split(GetUrl(cfg), '/')
            == ["https:", "", cfg.location + "-aiplatform.googleapis.com", ApiVersion(cfg.family),
                "projects", cfg.project, "locations", cfg.location]
  {
    UrlSegmentsPlain(cfg);
    SplitJoin(UrlSegments(cfg), '/');
  }
}
