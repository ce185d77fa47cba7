/**
 * The AI service factory: which adapters the configuration asks for, which
 * of them come up, the error when none does, the primary service, and
 * closing them. Client construction results are inputs.
 */
module AiFactory {
  import opened Wrappers
  import CloudConfig
  import GS = GeminiStudio
  import VG = VertexGemini
  import LS = LegacyService

  /** ServiceType; `NoService` is the empty string the source returns when nothing is up. */
  datatype ServiceType = StudioType | VertexGeminiType | VertexLegacyType | NoService
  {
    function Name(): (r: string)
      ensures r == "" <==> this == NoService
    {
      match this
      case StudioType => "gemini_studio"
      case VertexGeminiType => "vertex_gemini"
      case VertexLegacyType => "vertex_legacy"
      case NoService => ""
    }
  }

  /** The adapters that came up, each with its availability flag. */
  class Services {
    var geminiStudio: Option<GS.Service>
    var vertexGemini: Option<VG.Service>
    var legacyService: Option<LS.Service>
    var hasGeminiStudio: bool
    var hasVertexGemini: bool
    var hasLegacyService: bool

    /** Each flag says whether its adapter is present. */
    predicate Valid()
      reads this
    {
      (hasGeminiStudio <==> geminiStudio.Some?)
      && (hasVertexGemini <==> vertexGemini.Some?)
      && (hasLegacyService <==> legacyService.Some?)
    }

    /** An empty set of services. */
    constructor ()
      ensures Valid()
      ensures !hasGeminiStudio && !hasVertexGemini && !hasLegacyService
    {
      geminiStudio := None;
      vertexGemini := None;
      legacyService := None;
      hasGeminiStudio := false;
      hasVertexGemini := false;
      hasLegacyService := false;
    }

    /** Priority for text generation: Vertex Gemini, then Gemini Studio, then the legacy service. */
    function GetPrimaryService(): (r: ServiceType)
      reads this
      ensures r == VertexGeminiType <==> hasVertexGemini
      ensures r == StudioType <==> !hasVertexGemini && hasGeminiStudio
      ensures r == VertexLegacyType <==> !hasVertexGemini && !hasGeminiStudio && hasLegacyService
      ensures r == NoService <==> !hasVertexGemini && !hasGeminiStudio && !hasLegacyService
    {
      if hasVertexGemini then VertexGeminiType
      else if hasGeminiStudio then StudioType
      else if hasLegacyService then VertexLegacyType
      else NoService
    }

    /**
     * Closes the Vertex Gemini adapter, then the legacy one, and reports the
     * first error; Gemini Studio holds nothing to close.
     */
    method Close(vertexClose: Outcome, legacyClose: Outcome) returns (firstError: Outcome)
      ensures vertexGemini.Some? && VG.Close(vertexGemini.value, vertexClose).Fail? ==> firstError == VG.Close(vertexGemini.value, vertexClose)
      ensures (!(vertexGemini.Some? && VG.Close(vertexGemini.value, vertexClose).Fail?) && legacyService.Some?) ==>
                firstError == LS.Close(legacyService.value, legacyClose)
      ensures vertexGemini.None? && legacyService.None? ==> firstError == Pass
      ensures firstError.Fail? <==>
                ((vertexGemini.Some? && vertexClose.Fail? && vertexGemini.value.hasClient)
                 || (legacyService.Some? && legacyClose.Fail? && legacyService.value.hasClient))
    {
      firstError := Pass;
      if vertexGemini.Some? {
        var err := VG.Close(vertexGemini.value, vertexClose);
        if err.Fail? && firstError.Pass? {
          firstError := err;
        }
      }
      if legacyService.Some? {
        var err := LS.Close(legacyService.value, legacyClose);
        if err.Fail? && firstError.Pass? {
          firstError := err;
        }
      }
    }
  }

  /** Gemini Studio is used when a key is set and either it is switched on or a project is configured. */
  function ShouldUseGeminiStudio(cfg: CloudConfig.GoogleCloudConfig): (r: bool)
    ensures r <==> cfg.StudioAPIKey != "" && (cfg.UseStudioAPI || cfg.ProjectID != "")
  {
    (cfg.UseStudioAPI && cfg.StudioAPIKey != "") || (cfg.StudioAPIKey != "" && cfg.ProjectID != "")
  }

  /** Vertex AI (both adapters) is used when a project is configured. */
  function ShouldUseVertexAI(cfg: CloudConfig.GoogleCloudConfig): (r: bool)
    ensures r <==> cfg.ProjectID != ""
  {
    cfg.ProjectID != ""
  }

  const StudioKeyMissing := "Gemini Studio API key not configured"
  const ProjectMissing := "GCP project ID not configured"
  const VertexFailed := "failed to create Vertex Gemini service: "
  const LegacyFailed := "failed to create legacy Vertex service: "
  const NoneInitialized := "no AI services could be initialized: "
  const NoneConfigured := "no AI services configured"

  /** The factory holds the configuration it builds services from. */
  class Factory {
    const config: CloudConfig.GoogleCloudConfig

    constructor (cfg: CloudConfig.GoogleCloudConfig)
      ensures config == cfg
    {
      config := cfg;
    }

    /** Sets up Gemini Studio from the key and model; fails only without a key. */
    method CreateGeminiStudio(services: Services) returns (err: Option<string>)
      modifies services
      ensures err.Some? <==> config.StudioAPIKey == ""
      ensures err.Some? ==> err.value == StudioKeyMissing && unchanged(services)
      ensures err.None? ==> services.geminiStudio == Some(GS.NewGeminiStudioService(config.StudioAPIKey, config.GeminiModel))
                            && services.hasGeminiStudio
                            && services.vertexGemini == old(services.vertexGemini) && services.hasVertexGemini == old(services.hasVertexGemini)
                            && services.legacyService == old(services.legacyService) && services.hasLegacyService == old(services.hasLegacyService)
    {
      if config.StudioAPIKey == "" {
        return Some(StudioKeyMissing);
      }
      services.geminiStudio := Some(GS.NewGeminiStudioService(config.StudioAPIKey, config.GeminiModel));
      services.hasGeminiStudio := true;
      return None;
    }

    /** Sets up the Vertex Gemini adapter; fails without a project or when the client cannot be built. */
    method CreateVertexGemini(services: Services, clientInit: Outcome) returns (err: Option<string>)
      modifies services
      ensures err.Some? <==> config.ProjectID == "" || clientInit.Fail?
      ensures config.ProjectID == "" ==> err == Some(ProjectMissing)
      ensures config.ProjectID != "" && clientInit.Fail? ==> err == Some(VertexFailed + VG.NewVertexGeminiService(config, clientInit).error)
      ensures err.Some? ==> unchanged(services)
      ensures err.None? ==> services.vertexGemini == Some(VG.NewVertexGeminiService(config, clientInit).value)
                            && services.hasVertexGemini
                            && services.geminiStudio == old(services.geminiStudio) && services.hasGeminiStudio == old(services.hasGeminiStudio)
                            && services.legacyService == old(services.legacyService) && services.hasLegacyService == old(services.hasLegacyService)
    {
      if config.ProjectID == "" {
        return Some(ProjectMissing);
      }
      var service := VG.NewVertexGeminiService(config, clientInit);
      if service.Err? {
        return Some(VertexFailed + service.error);
      }
      services.vertexGemini := Some(service.value);
      services.hasVertexGemini := true;
      return None;
    }

    /** Sets up the legacy adapter (Imagen); fails without a project or when the client cannot be built. */
    method CreateLegacyService(services: Services, clientInit: Outcome) returns (err: Option<string>)
      modifies services
      ensures err.Some? <==> config.ProjectID == "" || clientInit.Fail?
      ensures config.ProjectID == "" ==> err == Some(ProjectMissing)
      ensures config.ProjectID != "" && clientInit.Fail? ==> err == Some(LegacyFailed + LS.NewService(config, clientInit).error)
      ensures err.Some? ==> unchanged(services)
      ensures err.None? ==> services.legacyService == Some(LS.NewService(config, clientInit).value)
                            && services.hasLegacyService
                            && services.geminiStudio == old(services.geminiStudio) && services.hasGeminiStudio == old(services.hasGeminiStudio)
                            && services.vertexGemini == old(services.vertexGemini) && services.hasVertexGemini == old(services.hasVertexGemini)
    {
      if config.ProjectID == "" {
        return Some(ProjectMissing);
      }
      var service := LS.NewService(config, clientInit);
      if service.Err? {
        return Some(LegacyFailed + service.error);
      }
      services.legacyService := Some(service.value);
      services.hasLegacyService := true;
      return None;
    }

    /**
     * Builds every configured adapter. A legacy failure is not remembered as
     * the last error; the call fails only when nothing came up.
     */
    method CreateServices(vertexInit: Outcome, legacyInit: Outcome) returns (r: Result<Services>)
      ensures r.Ok? <==> ShouldUseGeminiStudio(config) || (ShouldUseVertexAI(config) && (vertexInit.Pass? || legacyInit.Pass?))
      ensures r.Ok? ==> fresh(r.value) && r.value.Valid()
                        && r.value.hasGeminiStudio == ShouldUseGeminiStudio(config)
                        && r.value.hasVertexGemini == (ShouldUseVertexAI(config) && vertexInit.Pass?)
                        && r.value.hasLegacyService == (ShouldUseVertexAI(config) && legacyInit.Pass?)
      ensures !ShouldUseGeminiStudio(config) && !ShouldUseVertexAI(config) ==> r == Err(NoneConfigured)
      ensures (!r.Ok? && ShouldUseVertexAI(config)) ==>
                r == Err(NoneInitialized + VertexFailed + VG.NewVertexGeminiService(config, vertexInit).error)
    {
      var services := new Services();
      var lastError: Option<string> := None;
      if ShouldUseGeminiStudio(config) {
        var err := CreateGeminiStudio(services);
        if err.Some? {
          // ShouldUseGeminiStudio already demands a key, so this never happens.
          assert false;
        }
      }
      if ShouldUseVertexAI(config) {
        var err := CreateVertexGemini(services, vertexInit);
        if err.Some? {
          lastError := err;
        }
        var legacyErr := CreateLegacyService(services, legacyInit);
      }
      if !services.hasGeminiStudio && !services.hasVertexGemini && !services.hasLegacyService {
        if lastError.Some? {
          return Err(NoneInitialized + lastError.value);
        }
        return Err(NoneConfigured);
      }
      return Ok(services);
    }
  }
}
