/** The content-management panel of Admin.tsx: the form payloads it builds,
    the calls it issues and the state cells it keeps (session, edit targets,
    modals, the pending deletion). Every call's outcome is an input; what
    the panel sends is recorded in an ordered log. */
module Admin {
  import opened Wrappers
  import opened Text
  import opened Types
  import Seed
  import ApiService
  import Portfolio
  import opened Seqs

  // ----- Form payloads -----

  /** `.filter(f => f.trim())`: the entries whose trimmed text is non-empty
      (the non-blank ones, by `Text.BlankIffTrimEmpty`), kept untrimmed and
      in order. */
  function KeepNonBlank(lines: seq<string>): (r: seq<string>)
    ensures |r| <= |lines|
    ensures forall k :: 0 <= k < |r| ==> !IsBlank(r[k]) && r[k] in lines
  {
    if lines == [] then []
    else if IsBlank(lines[0]) then KeepNonBlank(lines[1..])
    else [lines[0]] + KeepNonBlank(lines[1..])
  }

  /** The filter keeps exactly the non-blank entries. */
  lemma {:induction false} KeepNonBlankMembers(lines: seq<string>, x: string)
    ensures x in KeepNonBlank(lines) <==> x in lines && !IsBlank(x)
  {
    if lines != [] {
      KeepNonBlankMembers(lines[1..], x);
      assert x in lines <==> x == lines[0] || x in lines[1..];
    }
  }

  /** Filtering a concatenation filters each part: the filter keeps order. */
  lemma {:induction false} KeepNonBlankAppend(a: seq<string>, b: seq<string>)
    ensures KeepNonBlank(a + b) == KeepNonBlank(a) + KeepNonBlank(b)
  {
    if a != [] {
      KeepNonBlankAppend(a[1..], b);
      assert (a + b)[1..] == a[1..] + b;
      assert (a + b)[0] == a[0];
      if IsBlank(a[0]) {
        assert KeepNonBlank(a + b) == KeepNonBlank(a[1..] + b);
      } else {
        assert KeepNonBlank(a + b) == [a[0]] + KeepNonBlank(a[1..] + b);
      }
    } else {
      assert a + b == b;
    }
  }

  /** With no blank entry the filter keeps everything. */
  lemma {:induction false} KeepNonBlankAll(lines: seq<string>)
    requires forall k :: 0 <= k < |lines| ==> !IsBlank(lines[k])
    ensures KeepNonBlank(lines) == lines
  {
    if lines != [] {
      KeepNonBlankAll(lines[1..]);
    }
  }

  /** `features`: the text split at line breaks with the blank lines
      dropped; the kept lines are not trimmed. */
  function Features(text: string): (r: seq<string>)
    ensures forall k :: 0 <= k < |r| ==> !IsBlank(r[k]) && '\n' !in r[k]
  {
    SplitPiecesFree(text, '\n');
    KeepNonBlank(Split(text, '\n'))
  }

  /** The edit form shows the features joined by line breaks; saving that
      text gives the same features back. */
  lemma FeaturesOfJoin(features: seq<string>)
    requires forall k :: 0 <= k < |features| ==> !IsBlank(features[k]) && '\n' !in features[k]
    ensures Features(Join(features, "\n")) == features
  {
    if features == [] {
      assert Split("", '\n') == [""];
      assert IsBlank("");
    } else {
      SplitJoin(features, '\n');
      KeepNonBlankAll(features);
    }
  }

  function TrimAll(pieces: seq<string>): (r: seq<string>)
    ensures |r| == |pieces|
    ensures forall k :: 0 <= k < |r| ==> r[k] == Trim(pieces[k])
  {
    if pieces == [] then [] else [Trim(pieces[0])] + TrimAll(pieces[1..])
  }

  lemma TrimAllTrimmed(pieces: seq<string>)
    ensures forall k :: 0 <= k < |TrimAll(pieces)| ==> Trimmed(TrimAll(pieces)[k])
  {
    var r := TrimAll(pieces);
    forall k | 0 <= k < |r| ensures Trimmed(r[k]) {
      var t := Trim(pieces[k]);
      assert Trimmed(t);
      assert r[k] == t;
    }
  }

  /** `technologies`: the text split at commas and each piece trimmed.
      Empty pieces are kept, so there is always one more entry than commas. */
  function Technologies(text: string): (r: seq<string>)
    ensures |r| == Count(text, ',') + 1
    ensures forall k :: 0 <= k < |r| ==> Trimmed(r[k])
  {
    SplitCount(text, ',');
    TrimAllTrimmed(Split(text, ','));
    TrimAll(Split(text, ','))
  }

  /** No piece of the technology list holds a comma. */
  lemma TechnologiesCommaFree(text: string)
    ensures forall k :: 0 <= k < |Technologies(text)| ==> ',' !in Technologies(text)[k]
  {
    SplitPiecesFree(text, ',');
    forall k | 0 <= k < |Technologies(text)| ensures ',' !in Technologies(text)[k] {
      TrimAddsNothing(Split(text, ',')[k], ',');
    }
  }

  /** An empty stack field does not give an empty list: it gives one empty
      technology. */
  lemma EmptyStackField()
    ensures Technologies("") == [""]
  {
    assert Split("", ',') == [""];
    assert Trimmed("");
    TrimOfTrimmed("");
  }

  /** A space right after a comma is trimmed away. */
  lemma TechnologiesAfterSpace(text: string)
    ensures Technologies(" " + text) == Technologies(text)
  {
    var p := Split(text, ',');
    assert (" " + text)[1..] == text;
    assert Split(" " + text, ',') == [" " + p[0]] + p[1..];
    TrimAfterSpace(' ', p[0]);
    assert TrimAll([" " + p[0]] + p[1..]) == [Trim(p[0])] + TrimAll(p[1..]);
    assert TrimAll(p) == [Trim(p[0])] + TrimAll(p[1..]);
  }

  /** How `join(', ')` lays out two or more entries. */
  lemma JoinCommaSpace(stack: seq<string>)
    requires |stack| >= 2
    ensures Join(stack, ", ") == stack[0] + [','] + (" " + Join(stack[1..], ", "))
  {
  }

  /** A comma-free trimmed entry, a comma and a space lead the list. */
  lemma TechnologiesCons(head: string, rest: string)
    requires Trimmed(head) && ',' !in head
    ensures Technologies(head + [','] + (" " + rest)) == [head] + Technologies(rest)
  {
    var p := Split(" " + rest, ',');
    SplitAfterPiece(head, ',', " " + rest);
    assert ([head] + p)[1..] == p;
    TrimOfTrimmed(head);
    TechnologiesAfterSpace(rest);
  }

  /** One entry: its text is the entry itself. */
  lemma TechnologiesOfSingle(head: string)
    requires Trimmed(head) && ',' !in head
    ensures Technologies(Join([head], ", ")) == [head]
  {
    SplitSeparatorFree(head, ',');
    TrimOfTrimmed(head);
    assert TrimAll([head]) == [Trim(head)] + TrimAll([]);
  }

  /** Two or more entries: the first one, then the list of the rest. */
  lemma TechnologiesOfJoinStep(stack: seq<string>)
    requires |stack| >= 2
    requires Trimmed(stack[0]) && ',' !in stack[0]
    requires Technologies(Join(stack[1..], ", ")) == stack[1..]
    ensures Technologies(Join(stack, ", ")) == stack
  {
    JoinCommaSpace(stack);
    TechnologiesCons(stack[0], Join(stack[1..], ", "));
    HeadTail(stack);
  }

  /** The edit form shows the technologies joined by ", "; saving that text
      gives the same list back when no entry is blank-padded or holds a
      comma (a non-empty list: an empty one comes back as `[""]`). */
  lemma {:induction false} TechnologiesOfJoin(stack: seq<string>)
    requires |stack| >= 1
    requires forall k :: 0 <= k < |stack| ==> Trimmed(stack[k]) && ',' !in stack[k]
    ensures Technologies(Join(stack, ", ")) == stack
  {
    if |stack| == 1 {
      TechnologiesOfSingle(stack[0]);
      HeadTail(stack);
    } else {
      TechnologiesOfJoin(stack[1..]);
      TechnologiesOfJoinStep(stack);
    }
  }

  /** `imageUrls`: the three image fields with the empty and blank ones
      dropped, in field order. */
  function ImageUrls(url1: string, url2: string, url3: string): (r: seq<string>)
    ensures |r| <= 3
    ensures forall k :: 0 <= k < |r| ==> !IsBlank(r[k]) && (r[k] == url1 || r[k] == url2 || r[k] == url3)
  {
    KeepNonBlank([url1, url2, url3])
  }

  /** Every non-blank image field is sent, and when all three are filled in
      they are sent in field order. */
  lemma ImageUrlsKeepFilled(url1: string, url2: string, url3: string)
    ensures !IsBlank(url1) ==> url1 in ImageUrls(url1, url2, url3)
    ensures !IsBlank(url2) ==> url2 in ImageUrls(url1, url2, url3)
    ensures !IsBlank(url3) ==> url3 in ImageUrls(url1, url2, url3)
    ensures !IsBlank(url1) && !IsBlank(url2) && !IsBlank(url3) ==> ImageUrls(url1, url2, url3) == [url1, url2, url3]
  {
    var fields := [url1, url2, url3];
    KeepNonBlankMembers(fields, url1);
    KeepNonBlankMembers(fields, url2);
    KeepNonBlankMembers(fields, url3);
    if !IsBlank(url1) && !IsBlank(url2) && !IsBlank(url3) {
      KeepNonBlankAll(fields);
    }
  }

  const DefaultVersion := "1.0.0"

  /** `version`: the field, or "1.0.0" when it is empty. A field of spaces
      is kept as it is. */
  function VersionOrDefault(field: string): (r: string)
    ensures r != ""
    ensures field != "" ==> r == field
    ensures field == "" ==> r == DefaultVersion
  {
    if field != "" then field else DefaultVersion
  }

  /** The fields of the project form. */
  datatype ProjectForm = ProjectForm(
    title: string,
    category: string,
    description: string,
    problem: string,
    learning: string,
    features: string,
    stack: string,
    githubUrl: string,
    liveUrl: string,
    imageUrl1: string,
    imageUrl2: string,
    imageUrl3: string,
    version: string)

  /** The body `saveProject` sends. */
  datatype ProjectPayload = ProjectPayload(
    title: string,
    architecture: string,
    description: string,
    problem: string,
    learning: string,
    features: seq<string>,
    technologies: seq<string>,
    githubUrl: string,
    demoUrl: string,
    imageUrls: seq<string>,
    version: string)

  function ProjectPayloadOf(f: ProjectForm): ProjectPayload {
    ProjectPayload(
      f.title, f.category, f.description, f.problem, f.learning,
      Features(f.features), Technologies(f.stack),
      f.githubUrl, f.liveUrl,
      ImageUrls(f.imageUrl1, f.imageUrl2, f.imageUrl3),
      VersionOrDefault(f.version))
  }

  /** A field's default value: an absent value shows as an empty input. */
  function Shown(v: Option<string>): string {
    if v.Some? then v.value else ""
  }

  /** The url of the `k`-th image, or nothing. */
  function ImageAt(images: seq<ProjectImage>, k: nat): Option<string> {
    if k < |images| then Some(images[k].url) else None
  }

  /** The project form pre-filled from a listed project (`editingProject`):
      the mapped record of the project list. */
  function EditForm(m: ApiService.MappedProject): ProjectForm {
    var raw := m.raw;
    var first := ImageAt(m.images, 0);
    ProjectForm(
      Shown(raw.title),
      m.category,
      Shown(raw.description),
      Shown(raw.problem),
      Shown(raw.learning),
      if raw.features.Some? then Join(raw.features.value, "\n") else "",
      Join(m.stack, ", "),
      Shown(raw.githubUrl),
      if ApiService.Truthy(raw.demoUrl) then raw.demoUrl.value else m.liveUrl,
      if ApiService.Truthy(first) then first.value else Shown(raw.imageUrl),
      Shown(ImageAt(m.images, 1)),
      Shown(ImageAt(m.images, 2)),
      if ApiService.Truthy(raw.version) then raw.version.value else "1.1.0")
  }

  /** The record the back end returns for a saved payload. */
  function Echo(id: int, p: ProjectPayload): ApiService.RawProject {
    ApiService.RawProject(
      Some(id), Some(p.title), Some(p.description), Some(p.technologies),
      Some(p.problem), Some(p.learning), Some(p.features), Some(p.architecture),
      Some(p.githubUrl), Some(p.demoUrl), Some(p.imageUrls), Some(p.version),
      None, None, None, None)
  }

  /** A payload the form can reproduce: no blank or multi-line feature, a
      non-empty list of trimmed comma-free technologies, a category, at most
      three non-blank image urls and a version. */
  predicate Reproducible(p: ProjectPayload) {
    (forall k :: 0 <= k < |p.features| ==> !IsBlank(p.features[k]) && '\n' !in p.features[k]) &&
    |p.technologies| >= 1 &&
    (forall k :: 0 <= k < |p.technologies| ==> Trimmed(p.technologies[k]) && ',' !in p.technologies[k]) &&
    p.architecture != "" &&
    |p.imageUrls| <= 3 &&
    (forall k :: 0 <= k < |p.imageUrls| ==> !IsBlank(p.imageUrls[k])) &&
    p.version != ""
  }

  /** Opening the editor on a saved project and saving without touching a
      field sends the same payload again. */
  lemma ResaveUnchanged(id: int, p: ProjectPayload)
    requires Reproducible(p)
    ensures ProjectPayloadOf(EditForm(ApiService.MapProject(Echo(id, p)))) == p
  {
    var raw := Echo(id, p);
    var m := ApiService.MapProject(raw);
    var f := EditForm(m);
    FeaturesOfJoin(p.features);
    TechnologiesOfJoin(p.technologies);
    assert f.category == p.architecture;
    assert f.liveUrl == p.demoUrl;
    ResaveImages(raw, p.imageUrls);
    assert [f.imageUrl1, f.imageUrl2, f.imageUrl3] == [Shown(ImageAt(m.images, 0)), Shown(ImageAt(m.images, 1)), Shown(ImageAt(m.images, 2))];
  }

  /** The three image fields of the edit form give the stored urls back. */
  lemma ResaveImages(raw: ApiService.RawProject, urls: seq<string>)
    requires raw.imageUrls == Some(urls) && raw.imageUrl.None?
    requires |urls| <= 3 && forall k :: 0 <= k < |urls| ==> !IsBlank(urls[k])
    ensures var m := ApiService.MapProject(raw);
      ImageUrls(Shown(ImageAt(m.images, 0)), Shown(ImageAt(m.images, 1)), Shown(ImageAt(m.images, 2))) == urls
  {
    var m := ApiService.MapProject(raw);
    var shown := [Shown(ImageAt(m.images, 0)), Shown(ImageAt(m.images, 1)), Shown(ImageAt(m.images, 2))];
    assert IsBlank("");
    if |urls| == 0 {
      assert shown == [] + ["", "", ""];
      KeepNonBlankAppend([], ["", "", ""]);
    } else {
      assert |m.images| == |urls|;
      assert shown == urls + shown[|urls|..];
      assert forall k :: |urls| <= k < 3 ==> shown[k] == "";
      KeepNonBlankAppend(urls, shown[|urls|..]);
      KeepNonBlankAll(urls);
      NoneKeptOfBlanks(shown[|urls|..]);
    }
  }

  lemma {:induction false} NoneKeptOfBlanks(lines: seq<string>)
    requires forall k :: 0 <= k < |lines| ==> lines[k] == ""
    ensures KeepNonBlank(lines) == []
  {
    if lines != [] {
      assert IsBlank(lines[0]);
      NoneKeptOfBlanks(lines[1..]);
    }
  }

  /** The fields of the profile form. */
  datatype ProfileForm = ProfileForm(
    name: string,
    role: string,
    manifesto: string,
    location: string,
    status: string,
    aboutTitle: string,
    aboutDescription: string,
    englishLevel: string,
    currentlyLearning: string,
    profileImage: string)

  /** The ten content fields of a profile record. */
  function Content(p: ProfileRecord): ProfileForm {
    ProfileForm(p.name, p.role, p.manifesto, p.location, p.status, p.aboutTitle,
      p.aboutDescription, p.englishLevel, p.currentlyLearning, p.profileImage)
  }

  /** The body `saveProfile` sends: the loaded profile's id (1 when there is
      none, or when it is 0) and every content field from the form. */
  function ProfilePayload(profile: Option<ProfileRecord>, form: ProfileForm): (r: ProfileRecord)
    ensures Content(r) == form
    ensures r.id != 0
    ensures profile.Some? && profile.value.id != 0 ==> r.id == profile.value.id
    ensures profile.None? || profile.value.id == 0 ==> r.id == 1
  {
    var id := if profile.Some? && profile.value.id != 0 then profile.value.id else 1;
    ProfileRecord(id, form.name, form.role, form.manifesto, form.location, form.status,
      form.aboutTitle, form.aboutDescription, form.englishLevel, form.currentlyLearning,
      form.profileImage)
  }

  /** A profile save is a full replacement: the loaded profile contributes
      nothing but its id. */
  lemma ProfileSaveIgnoresOldContent(p1: ProfileRecord, p2: ProfileRecord, form: ProfileForm)
    requires p1.id == p2.id
    ensures ProfilePayload(Some(p1), form) == ProfilePayload(Some(p2), form)
  {
  }

  /** Saving the profile form as it was pre-filled sends the loaded profile
      back unchanged. */
  lemma ProfileResaveUnchanged(p: ProfileRecord)
    requires p.id != 0
    ensures ProfilePayload(Some(p), Content(p)) == p
  {
  }

  /** The values the profile gets once its current goal is mastered. */
  const NextGoal := "Elegir nuevo objetivo..."
  const OpenToWork := "DISPONIBLE PARA NUEVOS RETOS"

  /** `{...profile, currentlyLearning: …, status: …}`. */
  function MasteredReset(p: ProfileRecord): (r: ProfileRecord)
    ensures r.currentlyLearning == NextGoal && r.status == OpenToWork
    ensures r.(currentlyLearning := p.currentlyLearning, status := p.status) == p
  {
    p.(currentlyLearning := NextGoal, status := OpenToWork)
  }

  /** The body `saveTool` sends; `progress` is the number the field holds. */
  datatype ToolPayload = ToolPayload(name: string, category: string, status: string, progress: int)

  /** A tool update marks as mastered the very skill the loaded profile says
      is being learned. */
  predicate ResetsProfile(editing: Option<int>, t: ToolPayload, profile: Option<ProfileRecord>) {
    editing.Some? && t.status == "MASTERED" && profile.Some? && profile.value.currentlyLearning == t.name
  }

  // ----- Calls -----

  datatype Tab = ProjectsTab | ProfileTab

  /** What the panel asks of the back end, in order. `LoadData` stands for
      `loadData()`: the reads of the given tab. */
  datatype Call =
    | LoginCall(username: string, password: string)
    | CreateProjectCall(project: ProjectPayload)
    | UpdateProjectCall(id: int, project: ProjectPayload)
    | DeleteProjectCall(id: int)
    | CreateToolCall(tool: ToolPayload)
    | UpdateToolCall(id: int, tool: ToolPayload)
    | DeleteToolCall(id: int)
    | UpdateProfileCall(profile: ProfileRecord)
    | LoadData(tab: Tab)

  /** The gateway call behind each request. */
  function EndpointOf(c: Call): (e: ApiService.Endpoint)
    requires !c.LoadData?
    ensures ApiService.IsWrite(e) <==> !c.LoginCall?
  {
    match c
    case LoginCall(_, _) => ApiService.Login
    case CreateProjectCall(_) => ApiService.CreateProject
    case UpdateProjectCall(id, _) => ApiService.UpdateProject(id)
    case DeleteProjectCall(id) => ApiService.DeleteProject(id)
    case CreateToolCall(_) => ApiService.CreateTool
    case UpdateToolCall(id, _) => ApiService.UpdateTool(id)
    case DeleteToolCall(id) => ApiService.DeleteTool(id)
    case UpdateProfileCall(_) => ApiService.UpdateProfile
  }

  /** Every change the panel requests goes out with the stored token. */
  lemma ChangesCarryToken(c: Call, stored: Option<string>)
    requires !c.LoadData? && !c.LoginCall?
    ensures ApiService.Header("Authorization", "Bearer " + ApiService.StoredTokenText(stored))
      in ApiService.Headers(EndpointOf(c), stored)
  {
  }

  /** The save of a project: an update of the edited project, or a create. */
  function SaveProjectCall(editing: Option<int>, p: ProjectPayload): (c: Call)
    ensures c.UpdateProjectCall? <==> editing.Some?
    ensures c.CreateProjectCall? <==> editing.None?
    ensures c.project == p
    ensures editing.Some? ==> c.id == editing.value
  {
    if editing.Some? then UpdateProjectCall(editing.value, p) else CreateProjectCall(p)
  }

  /** The calls `saveTool` makes, given whether the tool call succeeds: the
      tool update or create, then the profile reset when the update masters
      the current goal. */
  function SaveToolCalls(editing: Option<int>, t: ToolPayload, profile: Option<ProfileRecord>, toolOk: bool): (r: seq<Call>)
    ensures 1 <= |r| <= 2
    ensures r[0] == (if editing.Some? then UpdateToolCall(editing.value, t) else CreateToolCall(t))
    ensures (exists k :: 0 <= k < |r| && r[k].UpdateProfileCall?) <==> toolOk && ResetsProfile(editing, t, profile)
    ensures |r| == 2 ==> profile.Some? && r[1] == UpdateProfileCall(MasteredReset(profile.value))
  {
    if editing.None? then [CreateToolCall(t)]
    else if toolOk && ResetsProfile(editing, t, profile) then
      var r := [UpdateToolCall(editing.value, t), UpdateProfileCall(MasteredReset(profile.value))];
      assert r[1].UpdateProfileCall?;
      r
    else [UpdateToolCall(editing.value, t)]
  }

  // ----- Select options -----

  /** The category options of the skill form. */
  const CategoryOptions := ["LENGUAJES & FRONTEND", "BACKEND FRAMEWORKS", "DATOS & PERSISTENCIA", "HERRAMIENTAS & CONCEPTOS"]

  /** The status options of the skill form. */
  const StatusOptions := ["LEARNING", "INTERMEDIATE", "BASIC", "MASTERED"]

  /** The category options are the arsenal's column titles, in order, so a
      skill saved under any option is bucketed into that very column. */
  lemma CategoryOptionsSelectColumns()
    ensures CategoryOptions == Seed.Titles(Seed.TechStack)
    ensures forall k :: 0 <= k < |CategoryOptions| ==>
      Portfolio.TargetIndex(Seed.Titles(Seed.TechStack), Some(CategoryOptions[k])) == k
  {
    Seed.TechStackTitles();
    Portfolio.SeedTitlesSelect();
  }

  /** Every status option is handled by the page: a LEARNING skill feeds the
      learning line and stays out of the arsenal, and every other option
      gets its level suffix on the arsenal label. */
  lemma StatusOptionsHandled(t: ToolRecord)
    requires t.status in StatusOptions
    ensures t.status == "LEARNING" <==> Portfolio.LearningTools([t]) == [t]
    ensures t.status == "LEARNING" <==> Portfolio.StackTools([t]) == []
    ensures t.status != "LEARNING" ==>
      |Portfolio.SkillLabel(t)| > |t.name| && StartsWith(Portfolio.SkillLabel(t), t.name)
  {
    assert [t][1..] == [];
    Portfolio.SkillLabelShape(t);
  }

  // ----- The panel -----

  /** The notices the panel shows in its toast. */
  datatype Notice =
    | Connected | AccessDenied | SessionClosed
    | ProjectDeleted | ProjectDeleteFailed | ToolDeleted | ToolDeleteFailed
    | ProjectUpdated | ProjectCreated | ProjectSaveFailed
    | ToolUpdated | ToolRegistered | ToolSaveFailed
    | ProfileSynced | ProfileSyncFailed

  datatype ToastKind = SuccessToast | ErrorToast | InfoToast

  /** The text of each notice. */
  function Message(n: Notice): string {
    match n
    case Connected => "CONEXIÓN_ESTABLECIDA: Acceso autorizado"
    case AccessDenied => "ACCESO_DENEGADO: Credenciales incorrectas"
    case SessionClosed => "SESIÓN_FINALIZADA: Desconexión segura"
    case ProjectDeleted => "RECURSO_ELIMINADO_DE_LA_RED"
    case ProjectDeleteFailed => "SISTEMA_ERROR: No se pudo eliminar"
    case ToolDeleted => "CONOCIMIENTO_ELIMINADO_CON_ÉXITO"
    case ToolDeleteFailed => "SISTEMA_ERROR: No se pudo purgar el dato"
    case ProjectUpdated => "PROYECTO_ACTUALIZADO_EXITOSAMENTE"
    case ProjectCreated => "PROYECTO_CREADO_EXITOSAMENTE"
    case ProjectSaveFailed => "ERROR_DE_PERSISTENCIA: Revisa la conexión con el servidor"
    case ToolUpdated => "HABILIDAD_ACTUALIZADA_CON_ÉXITO"
    case ToolRegistered => "HABILIDAD_REGISTRADA_CON_ÉXITO"
    case ToolSaveFailed => "ERROR: No se pudo guardar la habilidad"
    case ProfileSynced => "PERFIL_SINCRONIZADO_GLOBALMENTE"
    case ProfileSyncFailed => "ERROR: Fallo en la sincronización del perfil"
  }

  /** The style of each notice. */
  function Kind(n: Notice): ToastKind {
    match n
    case Connected | ProjectDeleted | ToolDeleted | ProjectUpdated | ProjectCreated
      | ToolUpdated | ToolRegistered | ProfileSynced => SuccessToast
    case SessionClosed => InfoToast
    case _ => ErrorToast
  }

  /** What a confirmed deletion removes. */
  datatype Target = ProjectTarget(id: int) | ToolTarget(id: int)

  /** The question the confirmation dialog asks. */
  function ConfirmMessage(t: Target): string {
    if t.ProjectTarget? then "¿ELIMINAR_ESTE_RECURSO_PERMANENTEMENTE?"
    else "¿ELIMINAR_ESTE_CONOCIMIENTO_DE_LA_MATRIZ?"
  }

  /** The request a confirmed deletion sends. */
  function DeleteCall(t: Target): Call {
    if t.ProjectTarget? then DeleteProjectCall(t.id) else DeleteToolCall(t.id)
  }

  /** The notice after a confirmed deletion. */
  function DeleteNotice(t: Target, ok: bool): Notice {
    if t.ProjectTarget? then (if ok then ProjectDeleted else ProjectDeleteFailed)
    else (if ok then ToolDeleted else ToolDeleteFailed)
  }

  /** The toast's style follows the outcome: a completed save or deletion
      shows a success toast, a failed one an error toast, and so does a
      login; closing the session is the one informational notice. */
  lemma NoticeKinds(t: Target, ok: bool, editing: bool)
    ensures Kind(DeleteNotice(t, ok)) == (if ok then SuccessToast else ErrorToast)
    ensures Kind(if editing then ProjectUpdated else ProjectCreated) == SuccessToast
    ensures Kind(if editing then ToolUpdated else ToolRegistered) == SuccessToast
    ensures Kind(ProjectSaveFailed) == ErrorToast && Kind(ToolSaveFailed) == ErrorToast
    ensures Kind(ProfileSynced) == SuccessToast && Kind(ProfileSyncFailed) == ErrorToast
    ensures Kind(Connected) == SuccessToast && Kind(AccessDenied) == ErrorToast
    ensures Kind(SessionClosed) == InfoToast
  {
  }

  /** Every state cell of the panel, together. */
  datatype PanelState = PanelState(
    stored: Option<string>,
    loggedIn: bool,
    denied: bool,
    loading: bool,
    tab: Tab,
    profile: Option<ProfileRecord>,
    showProjectModal: bool,
    showToolModal: bool,
    editingProject: Option<int>,
    editingTool: Option<int>,
    confirm: Option<Target>,
    toast: Option<Notice>,
    calls: seq<Call>)

  class AdminPanel {
    /** The token in local storage. */
    var stored: Option<string>
    var loggedIn: bool
    /** Whether the login form shows the access-denied error (`error` is
        either empty or `Message(AccessDenied)`). */
    var denied: bool
    var loading: bool
    var tab: Tab
    /** The profile the profile tab loaded. */
    var profile: Option<ProfileRecord>
    var showProjectModal: bool
    var showToolModal: bool
    /** The id of the project, and of the skill, being edited. */
    var editingProject: Option<int>
    var editingTool: Option<int>
    /** The deletion awaiting confirmation; its question is
        `ConfirmMessage` of it. */
    var confirm: Option<Target>
    var toast: Option<Notice>
    /** Every request sent so far, in order. */
    var calls: seq<Call>

    function State(): PanelState
      reads this
    {
      PanelState(stored, loggedIn, denied, loading, tab, profile, showProjectModal, showToolModal,
        editingProject, editingTool, confirm, toast, calls)
    }

    /** The panel is logged in exactly when a (non-empty) token is stored,
        and then loads the projects tab. */
    constructor (stored: Option<string>)
      ensures State() == PanelState(stored, ApiService.Truthy(stored), false, false, ProjectsTab, None,
        false, false, None, None, None, None,
        if ApiService.Truthy(stored) then [LoadData(ProjectsTab)] else [])
    {
      this.stored := stored;
      loggedIn := ApiService.Truthy(stored);
      denied := false;
      loading := false;
      tab := ProjectsTab;
      profile := None;
      showProjectModal := false;
      showToolModal := false;
      editingProject := None;
      editingTool := None;
      confirm := None;
      toast := None;
      calls := if ApiService.Truthy(stored) then [LoadData(ProjectsTab)] else [];
    }

    /** `handleLogin`; `token` is what the login call returned, `None` when
        it failed. A success stores the token and logs in (which loads the
        active tab); a failure stores nothing and keeps the session as it was. */
    method Login(username: string, password: string, token: Option<string>)
      modifies this
      ensures token.Some? && old(loggedIn) ==> State() == old(State()).(
        stored := token, denied := false, loading := false, toast := Some(Connected),
        calls := old(calls) + [LoginCall(username, password)])
      ensures token.Some? && !old(loggedIn) ==> State() == old(State()).(
        stored := token, loggedIn := true, denied := false, loading := false, toast := Some(Connected),
        calls := old(calls) + [LoginCall(username, password)] + [LoadData(old(tab))])
      ensures token.None? ==> State() == old(State()).(
        denied := true, loading := false, toast := Some(AccessDenied),
        calls := old(calls) + [LoginCall(username, password)])
    {
      var sent := calls + [LoginCall(username, password)];
      if token.Some? {
        calls := if loggedIn then sent else sent + [LoadData(tab)];
        stored, loggedIn, denied, toast := token, true, false, Some(Connected);
      } else {
        denied, toast, calls := true, Some(AccessDenied), sent;
      }
      loading := false;
    }

    /** `handleLogout`: the token is removed and the session ends. */
    method Logout()
      modifies this
      ensures State() == old(State()).(stored := None, loggedIn := false, toast := Some(SessionClosed))
    {
      stored := None;
      loggedIn := false;
      toast := Some(SessionClosed);
    }

    /** Choosing a tab; a logged-in panel loads a newly chosen tab. */
    method SwitchTab(t: Tab)
      modifies this
      ensures loggedIn && t != old(tab) ==> State() == old(State()).(tab := t, calls := old(calls) + [LoadData(t)])
      ensures !(loggedIn && t != old(tab)) ==> State() == old(State()).(tab := t)
    {
      if loggedIn && t != tab {
        calls := calls + [LoadData(t)];
      }
      tab := t;
    }

    /** The profile tab finished loading. */
    method ProfileLoaded(p: Option<ProfileRecord>)
      modifies this
      ensures State() == old(State()).(profile := p)
    {
      profile := p;
    }

    /** The new-project button (`target` none) or a project's edit button. */
    method OpenProjectEditor(target: Option<int>)
      modifies this
      ensures State() == old(State()).(editingProject := target, showProjectModal := true)
    {
      editingProject := target;
      showProjectModal := true;
    }

    /** The new-skill button (`target` none) or a skill's edit button. */
    method OpenToolEditor(target: Option<int>)
      modifies this
      ensures State() == old(State()).(editingTool := target, showToolModal := true)
    {
      editingTool := target;
      showToolModal := true;
    }

    /** The close button of the project form; the edit target is kept. */
    method CloseProjectEditor()
      modifies this
      ensures State() == old(State()).(showProjectModal := false)
    {
      showProjectModal := false;
    }

    /** The close button of the skill form; the edit target is kept. */
    method CloseToolEditor()
      modifies this
      ensures State() == old(State()).(showToolModal := false)
    {
      showToolModal := false;
    }

    /** `handleDeleteProject` and `handleDeleteTool`: only the confirmation
        opens; nothing is sent. */
    method RequestDelete(t: Target)
      modifies this
      ensures State() == old(State()).(confirm := Some(t))
    {
      confirm := Some(t);
    }

    /** The abort button: the dialog closes and nothing is sent. */
    method Abort()
      modifies this
      ensures State() == old(State()).(confirm := None)
    {
      confirm := None;
    }

    /** The confirm button (shown only while a dialog is open): the deletion
        is sent; on success the tab reloads; either way the dialog closes. */
    method Confirm(ok: bool)
      requires confirm.Some?
      modifies this
      ensures ok ==> State() == old(State()).(
        confirm := None,
        calls := old(calls) + [DeleteCall(old(confirm).value)] + [LoadData(old(tab))],
        toast := Some(DeleteNotice(old(confirm).value, true)))
      ensures !ok ==> State() == old(State()).(
        confirm := None,
        calls := old(calls) + [DeleteCall(old(confirm).value)],
        toast := Some(DeleteNotice(old(confirm).value, false)))
    {
      var t := confirm.value;
      var sent := calls + [DeleteCall(t)];
      calls := if ok then sent + [LoadData(tab)] else sent;
      toast, confirm := Some(DeleteNotice(t, ok)), None;
    }

    /** `saveProject`: an update when a project is being edited, a create
        otherwise, sending `payload` (the body `ProjectPayloadOf` builds from
        the submitted form). A success closes the form, clears the edit
        target and reloads; a failure only reports, and the form stays
        open. */
    method SaveProject(payload: ProjectPayload, ok: bool)
      modifies this
      ensures var sent := [SaveProjectCall(old(editingProject), payload)];
        ok ==> State() == old(State()).(
          loading := false, showProjectModal := false, editingProject := None,
          calls := old(calls) + sent + [LoadData(old(tab))],
          toast := Some(if old(editingProject).Some? then ProjectUpdated else ProjectCreated))
      ensures var sent := [SaveProjectCall(old(editingProject), payload)];
        !ok ==> State() == old(State()).(loading := false, calls := old(calls) + sent, toast := Some(ProjectSaveFailed))
    {
      var sent := [SaveProjectCall(editingProject, payload)];
      if ok {
        calls := calls + sent + [LoadData(tab)];
        toast := Some(if editingProject.Some? then ProjectUpdated else ProjectCreated);
        showProjectModal, editingProject := false, None;
      } else {
        calls, toast := calls + sent, Some(ProjectSaveFailed);
      }
      loading := false;
    }

    /** `saveTool`: the tool call, then (for an update that masters the
        current goal) the profile reset. `toolOk` and `profileOk` are the
        outcomes of the two calls; the save succeeds when every call it made
        succeeded. The loaded profile is not changed locally. */
    method SaveTool(t: ToolPayload, toolOk: bool, profileOk: bool)
      modifies this
      ensures var sent := SaveToolCalls(old(editingTool), t, old(profile), toolOk);
        var ok := toolOk && (|sent| == 1 || profileOk);
        ok ==> State() == old(State()).(
          loading := false, showToolModal := false, editingTool := None,
          calls := old(calls) + sent + [LoadData(old(tab))],
          toast := Some(if old(editingTool).Some? then ToolUpdated else ToolRegistered))
      ensures var sent := SaveToolCalls(old(editingTool), t, old(profile), toolOk);
        var ok := toolOk && (|sent| == 1 || profileOk);
        !ok ==> State() == old(State()).(
          loading := false, calls := old(calls) + sent, toast := Some(ToolSaveFailed))
    {
      var sent := SaveToolCalls(editingTool, t, profile, toolOk);
      var ok := toolOk && (|sent| == 1 || profileOk);
      if ok {
        calls := calls + sent + [LoadData(tab)];
        toast := Some(if editingTool.Some? then ToolUpdated else ToolRegistered);
        showToolModal, editingTool := false, None;
      } else {
        calls, toast := calls + sent, Some(ToolSaveFailed);
      }
      loading := false;
    }

    /** `saveProfile`: one full-replacement update; a success reloads. */
    method SaveProfile(form: ProfileForm, ok: bool)
      modifies this
      ensures ok ==> State() == old(State()).(
        loading := false,
        calls := old(calls) + [UpdateProfileCall(ProfilePayload(old(profile), form))] + [LoadData(old(tab))],
        toast := Some(ProfileSynced))
      ensures !ok ==> State() == old(State()).(
        loading := false,
        calls := old(calls) + [UpdateProfileCall(ProfilePayload(old(profile), form))],
        toast := Some(ProfileSyncFailed))
    {
      var sent := calls + [UpdateProfileCall(ProfilePayload(profile, form))];
      if ok {
        calls, toast := sent + [LoadData(tab)], Some(ProfileSynced);
      } else {
        calls, toast := sent, Some(ProfileSyncFailed);
      }
      loading := false;
    }
  }
}
