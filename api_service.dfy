/** The gateway client of apiService.ts: how the API base URL is derived, the
    headers each call sends, how each call settles on the HTTP status, and the
    normalisation of back-end project records into display records. The
    requests themselves are I/O and are not modelled; a response is given as
    its status code and body. */
module ApiService {
  import opened Wrappers
  import opened Text
  import opened Types

  const DefaultBase := "http://localhost:8080"

  /** JavaScript truthiness of a string that may be null or undefined. */
  predicate Truthy(s: Option<string>) {
    s.Some? && s.value != ""
  }

  /** `BASE`: the configured base URL (when truthy) or the local default, with
      one trailing slash removed. */
  function Base(env: Option<string>): (r: string)
    ensures var raw := if Truthy(env) then env.value else DefaultBase;
      (EndsWith(raw, "/") ==> raw == r + "/") && (!EndsWith(raw, "/") ==> r == raw)
  {
    var raw := if Truthy(env) then env.value else DefaultBase;
    if |raw| > 0 && raw[|raw| - 1] == '/' then raw[..|raw| - 1] else raw
  }

  /** `API_BASE_URL`: `BASE` with "/api" appended unless it already ends so. */
  function ApiBaseUrl(env: Option<string>): (r: string)
    ensures EndsWith(r, "/api")
    ensures StartsWith(r, Base(env))
    ensures EndsWith(Base(env), "/api") <==> r == Base(env)
    ensures !EndsWith(Base(env), "/api") ==> r == Base(env) + "/api"
  {
    var base := Base(env);
    if EndsWith(base, "/api") then base else base + "/api"
  }

  /** With nothing configured the client talks to the local back end. */
  lemma DefaultApiBaseUrl()
    ensures ApiBaseUrl(None) == "http://localhost:8080/api"
    ensures ApiBaseUrl(Some("")) == "http://localhost:8080/api"
  {
    assert !EndsWith(DefaultBase, "/");
    assert !EndsWith(DefaultBase, "/api");
  }

  /** Feeding the computed URL back in as the configuration changes nothing. */
  lemma ApiBaseUrlIdempotent(env: Option<string>)
    ensures ApiBaseUrl(Some(ApiBaseUrl(env))) == ApiBaseUrl(env)
  {
    var r := ApiBaseUrl(env);
    assert r[|r| - 1] == r[|r| - 4..][3] == 'i';
    assert Truthy(Some(r));
    assert Base(Some(r)) == r;
  }

  /** A configured URL given with or without one trailing slash leads to the
      same API URL. */
  lemma TrailingSlashIgnored(url: string)
    requires url != "" && !EndsWith(url, "/")
    ensures ApiBaseUrl(Some(url + "/")) == ApiBaseUrl(Some(url))
  {
    assert (url + "/")[..|url|] == url;
  }

  // ----- Calls, headers and settlement -----

  /** The gateway's calls. */
  datatype Endpoint =
    | GetProjects | CreateProject | UpdateProject(id: int) | DeleteProject(id: int)
    | GetLearningTools | CreateTool | UpdateTool(id: int) | DeleteTool(id: int)
    | GetProfile | UpdateProfile
    | Login | SendMessage

  /** The calls that change content on the back end. */
  predicate IsWrite(e: Endpoint) {
    e.CreateProject? || e.UpdateProject? || e.DeleteProject? ||
    e.CreateTool? || e.UpdateTool? || e.DeleteTool? || e.UpdateProfile?
  }

  datatype Header = Header(name: string, value: string)

  const JsonContentType := Header("Content-Type", "application/json")

  /** What the template literal `${localStorage.getItem('adminToken')}` yields:
      the stored token, or the text "null" when there is none. */
  function StoredTokenText(stored: Option<string>): string {
    if stored.Some? then stored.value else "null"
  }

  /** The headers each call sends, given the token currently in storage. */
  function Headers(e: Endpoint, stored: Option<string>): (r: seq<Header>)
    ensures (exists h :: h in r && h.name == "Authorization") <==> IsWrite(e)
    ensures IsWrite(e) ==> Header("Authorization", "Bearer " + StoredTokenText(stored)) in r
    ensures e.GetProjects? || e.GetLearningTools? || e.GetProfile? ==> r == []
  {
    if IsWrite(e) then [JsonContentType, Header("Authorization", "Bearer " + StoredTokenText(stored))]
    else if e.Login? || e.SendMessage? then [JsonContentType]
    else []
  }

  /** `res.ok`: a status in the 2xx range. */
  predicate IsOk(status: int) {
    200 <= status <= 299
  }

  /** How a call settles: with its parsed body, with `true`, with `null`, or by
      throwing an error with a fixed message. */
  datatype Reply = Body | MappedBody | True | Null | Thrown(message: string)

  function ErrorMessage(e: Endpoint): string {
    match e
    case GetProjects => "Error al cargar proyectos"
    case CreateProject => "Error al crear proyecto"
    case UpdateProject(_) => "Error al actualizar proyecto"
    case DeleteProject(_) => "Error al eliminar proyecto"
    case GetLearningTools => "Error al cargar herramientas"
    case CreateTool => "Error al crear herramienta"
    case UpdateTool(_) => "Error al actualizar herramienta"
    case DeleteTool(_) => "Error al eliminar herramienta"
    case GetProfile => ""
    case UpdateProfile => "Error al actualizar perfil"
    case Login => "Credenciales inválidas"
    case SendMessage => "Error al enviar mensaje"
  }

  /** The settlement of a call whose response has the given status. */
  function Settle(e: Endpoint, status: int): (r: Reply)
    ensures !IsOk(status) ==> (r.Null? <==> e.GetProfile?)
    ensures !IsOk(status) && !e.GetProfile? ==> r == Thrown(ErrorMessage(e))
    ensures IsOk(status) ==> !r.Thrown? && !r.Null?
    ensures IsOk(status) && e.GetProjects? ==> r.MappedBody?
  {
    if !IsOk(status) then
      if e.GetProfile? then Null else Thrown(ErrorMessage(e))
    else if e.GetProjects? then MappedBody
    else if e.DeleteProject? || e.DeleteTool? || e.SendMessage? then True
    else Body
  }

  // ----- Normalisation of project records -----

  /** A project record as the back end sends it. Every key may be null or
      absent; `category`, `stack`, `imageUrl` and `liveUrl` are the display
      or legacy keys a record may also carry. */
  datatype RawProject = RawProject(
    id: Option<int>,
    title: Option<string>,
    description: Option<string>,
    technologies: Option<seq<string>>,
    problem: Option<string>,
    learning: Option<string>,
    features: Option<seq<string>>,
    architecture: Option<string>,
    githubUrl: Option<string>,
    demoUrl: Option<string>,
    imageUrls: Option<seq<string>>,
    version: Option<string>,
    category: Option<string>,
    stack: Option<seq<string>>,
    imageUrl: Option<string>,
    liveUrl: Option<string>)

  /** The result of `mapProject`: every key of the input (the spread) with
      `category`, `stack`, `images` and `liveUrl` set. */
  datatype MappedProject = MappedProject(
    raw: RawProject,
    category: string,
    stack: seq<string>,
    images: seq<ProjectImage>,
    liveUrl: string)

  /** The caption every generated image gets. */
  function Caption(p: RawProject): string {
    if Truthy(p.title) then p.title.value else "Project Screenshot"
  }

  function Screenshots(urls: seq<string>, caption: string): (r: seq<ProjectImage>)
    ensures |r| == |urls|
    ensures forall i :: 0 <= i < |urls| ==> r[i] == ProjectImage(urls[i], caption, "screenshot")
  {
    if urls == [] then [] else [ProjectImage(urls[0], caption, "screenshot")] + Screenshots(urls[1..], caption)
  }

  /** `mapProject`. */
  function MapProject(p: RawProject): (r: MappedProject)
    ensures r.raw == p
    ensures Truthy(p.architecture) ==> r.category == p.architecture.value
    ensures !Truthy(p.architecture) && Truthy(p.category) ==> r.category == p.category.value
    ensures !Truthy(p.architecture) && !Truthy(p.category) ==> r.category == "BACKEND"
    ensures r.stack == (if p.technologies.Some? then p.technologies.value
                        else if p.stack.Some? then p.stack.value else [])
    ensures p.imageUrls.Some? && p.imageUrls.value != [] ==>
      |r.images| == |p.imageUrls.value| &&
      forall i :: 0 <= i < |r.images| ==>
        r.images[i].url == p.imageUrls.value[i] && r.images[i].caption == Caption(p) &&
        r.images[i].imageType == "screenshot"
    ensures (p.imageUrls.None? || p.imageUrls.value == []) ==>
      r.images == (if Truthy(p.imageUrl) then [ProjectImage(p.imageUrl.value, Caption(p), "screenshot")] else [])
    ensures r.liveUrl == (if Truthy(p.demoUrl) then p.demoUrl.value
                          else if Truthy(p.liveUrl) then p.liveUrl.value else "")
  {
    MappedProject(
      p,
      if Truthy(p.architecture) then p.architecture.value
      else if Truthy(p.category) then p.category.value
      else "BACKEND",
      if p.technologies.Some? then p.technologies.value
      else if p.stack.Some? then p.stack.value
      else [],
      if p.imageUrls.Some? && |p.imageUrls.value| > 0 then Screenshots(p.imageUrls.value, Caption(p))
      else if Truthy(p.imageUrl) then [ProjectImage(p.imageUrl.value, Caption(p), "screenshot")]
      else [],
      if Truthy(p.demoUrl) then p.demoUrl.value
      else if Truthy(p.liveUrl) then p.liveUrl.value
      else "")
  }

  /** An empty image list falls back to the legacy single image. */
  lemma LegacyImageFallback(p: RawProject, url: string)
    requires p.imageUrls == Some([]) && p.imageUrl == Some(url) && url != ""
    ensures MapProject(p).images == [ProjectImage(url, Caption(p), "screenshot")]
  {
  }

  /** An empty technology list is still an array, so it wins over `stack`. */
  lemma EmptyTechnologiesWin(p: RawProject)
    requires p.technologies == Some([])
    ensures MapProject(p).stack == []
  {
  }

  /** The body `getProjects` resolves with: every record normalised, in order. */
  function MapProjects(data: seq<RawProject>): (r: seq<MappedProject>)
    ensures |r| == |data|
    ensures forall i :: 0 <= i < |data| ==> r[i] == MapProject(data[i])
  {
    if data == [] then [] else [MapProject(data[0])] + MapProjects(data[1..])
  }
}
