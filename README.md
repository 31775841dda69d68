# Portfolio: a verified model of the content pipeline

This project models, in Dafny, the logic that moves content through a
personal portfolio site. The site has a React front end and a Quarkus back
end.

Front end (TypeScript):

- `Portfolio` — the public page's `fetchData` reconciliation. The hero and
  "about" sections are overwritten by the back-end profile. The back-end
  projects are merged after the seed projects, de-duplicated by exact title.
  The non-LEARNING skills are bucketed into the four arsenal columns, with
  a level suffix and a fallback column. The LEARNING skills become the
  "currently learning" text and the hero status line. A rejected batch
  leaves every section as it was. The page is a class of state cells. The
  arsenal columns are objects shared with the seed list and updated in
  place, as the shallow copy in the source does.
- `ApiService` — the gateway client. It covers the `BASE` / `API_BASE_URL`
  derivation, the headers of each call and how each call settles on its
  HTTP status. It also covers `mapProject`, which turns back-end project
  records into display records.
- `Admin` — the content-management panel. It covers the payload builders
  for the project, skill and profile forms, the session controller, the
  confirm-before-delete protocol and the create-or-update dispatch. The
  panel is a class whose state cells change step by step. Every request it
  sends is appended to an ordered call log.
- `ProjectModal` — the image carousel's index, with JavaScript's
  truncating `%`.
- `Seed` and `Types` — the seed catalog (hero, about, arsenal, the three
  built-in projects) and the front-end records.

Back end (Java):

- `Backend` — the DTO, domain and entity records.
- `Tables` — a table with an identity column, as the Panache repositories
  see it. It holds the rows by id, the `listAll` order and the next id.
- `ProjectMapper`, `ProjectRepository`, `ProjectService` — the project
  layers.
- `LearningToolMapper`, `LearningToolRepository`, `LearningToolService` —
  the skill layers.
- `ContactMapper`, `ContactRepository` — contact messages. The domain
  message is a class, because `save` sets the id on the caller's object.
- `ProfileResource` — the singleton profile row (id 1) with its built-in
  default, replaced whole by an update.
- `AuthResource` — the login decision.

Shared helpers: `Wrappers` (Option, Result), `Seqs` and `Text`. `Text`
models the JavaScript string operations the source relies on: `trim`,
`split`, `join`, `toUpperCase` and `includes`.

Two details of the project form, as the code has them:

- The form reads three image fields (Admin.tsx:124-128).
- The feature lines it keeps are not trimmed (Admin.tsx:120).

## Model

| member | source | states |
|---|---|---|
| Text.Trim | Admin.tsx:121 | `trim()` leaves text with no white space at either end and never lengthens it |
| Text.TrimIsSlice | Admin.tsx:121 | the result of `trim()` is a contiguous slice of its input |
| Text.TrimCutsBlank | Admin.tsx:121 | everything `trim()` cuts from either end is white space |
| Text.BlankIffTrimEmpty | Admin.tsx:120 | `f.trim()` is falsy exactly when `f` is blank (only white space, or empty) |
| Text.TrimOfTrimmed | Admin.tsx:121 | trimming text with no surrounding white space returns it unchanged |
| Text.TrimAfterSpace | Admin.tsx:121 | a leading white-space character makes no difference to `trim()` |
| Text.TrimAddsNothing | Admin.tsx:121 | `trim()` introduces no character its input lacks |
| Text.Upper | Portfolio.tsx:97 | `toUpperCase` keeps the length and maps each character through the one-character upper-casing |
| Text.UpperIdempotent | Portfolio.tsx:97 | upper-casing twice is upper-casing once |
| Text.UpperAppend | Portfolio.tsx:121 | the upper case of a concatenation is the concatenation of the upper cases |
| Text.ContainsIffOccurs | Portfolio.tsx:97 | `includes` is true exactly when the substring occurs at some position |
| Text.Split | Admin.tsx:120-121 | `split` with a one-character separator always gives at least one piece |
| Text.SplitCount | Admin.tsx:121 | `split` gives one more piece than there are separators |
| Text.SplitPiecesFree | Admin.tsx:120-121 | no piece of a `split` contains the separator |
| Text.SplitAfterPiece | Admin.tsx:121 | a separator-free piece followed by the separator splits off as the first piece |
| Text.SplitSeparatorFree | Admin.tsx:121 | text without the separator splits into itself alone |
| Text.SplitJoin | Admin.tsx:120 | joining separator-free pieces and splitting again gives the pieces back |
| Text.JoinSplit | Admin.tsx:120 | splitting and joining with the same separator gives the text back |
| ApiService.Base | apiService.ts:7 | the configured base when truthy, else `http://localhost:8080`, with exactly one trailing "/" removed and nothing else changed |
| ApiService.ApiBaseUrl | apiService.ts:8 | the API URL is `BASE` when `BASE` already ends in "/api", and exactly `BASE` + "/api" otherwise; either way it ends in "/api" and starts with `BASE` |
| ApiService.DefaultApiBaseUrl | apiService.ts:7-8 | with no base configured, or an empty one, the API URL is `http://localhost:8080/api` |
| ApiService.ApiBaseUrlIdempotent | apiService.ts:7-8 | configuring the computed URL as the base yields the same URL |
| ApiService.TrailingSlashIgnored | apiService.ts:7 | a base given with or without one trailing slash leads to the same API URL |
| ApiService.Headers | apiService.ts:11-14 | an Authorization header is sent exactly on the seven write calls, valued "Bearer " plus the stored token, or "Bearer null" with none stored; the three reads send no headers |
| ApiService.Settle | apiService.ts:35-159 | on a non-2xx status `getProfile` resolves to null and every other call throws its own message; on 2xx no call throws or yields null, and `getProjects` resolves to the mapped body |
| ApiService.Screenshots | apiService.ts:26 | one screenshot record per URL, in order, each with the shared caption |
| ApiService.MapProject | apiService.ts:19-29 | the input record is carried whole. `category` is `architecture`, else `category`, else "BACKEND". `stack` is `technologies`, else `stack`, else []. A non-empty `imageUrls` gives one screenshot per URL, in order, captioned with the title or "Project Screenshot"; otherwise a truthy legacy `imageUrl` gives one image, else none. `liveUrl` is `demoUrl`, else `liveUrl`, else "" |
| ApiService.LegacyImageFallback | apiService.ts:25-27 | an empty `imageUrls` array falls back to the single legacy image |
| ApiService.EmptyTechnologiesWin | apiService.ts:23 | an empty `technologies` array is truthy, so it wins over `stack` |
| ApiService.MapProjects | apiService.ts:38-39 | `getProjects` resolves to every record mapped, same length and order |
| Seed.TechStackShape | constants.tsx:34-51 | the arsenal has four columns; the fallback index 3 exists and is "HERRAMIENTAS & CONCEPTOS" |
| Seed.SeedSkillsDistinct | constants.tsx:34-51 | no skill is listed twice within a seed column |
| Seed.SeedProjectsDistinct | constants.tsx:68-141 | the seed project ids and titles are pairwise distinct |
| Seed.SeedProjectsShape | constants.tsx:68-141 | every seed project has four images, all of type "screenshot", and version "1.1.0" |
| Seed.TechStackTitles | constants.tsx:34-51 | the four column titles, in order |
| Portfolio.SomeHasTitle | Portfolio.tsx:80 | the `some` search answers true exactly when an entry has that title |
| Portfolio.MergeProjects | Portfolio.tsx:77-85 | the `forEach` loop builds exactly `Merged(seed, backend)`: each back-end project is appended unless an entry already in the list has the same title |
| Portfolio.MergedExtendsBase | Portfolio.tsx:77-83 | the merged list starts with the seed list, whole and in order, and is at most seed length plus back-end length |
| Portfolio.MergedCoversBackend | Portfolio.tsx:79-83 | every back-end title and every seed title is present in the merged list |
| Portfolio.MergedDistinct | Portfolio.tsx:79-83 | if the seed titles are distinct, so are the merged titles |
| Portfolio.MergedOrigins | Portfolio.tsx:79-83 | every entry after the seed is a back-end record, and the appended records keep back-end order |
| Portfolio.SeedMergeDistinct | Portfolio.tsx:77-85 | from the seed list, the merged list never shows two projects with one title and always starts with the seed |
| Portfolio.CategoryKey | Portfolio.tsx:97 | the search key is "" for a missing category, else the upper-cased category |
| Portfolio.FindIndex | Portfolio.tsx:96-98 | `findIndex` answers -1 or a valid column index |
| Portfolio.FindIndexFirst | Portfolio.tsx:96-98 | a non-negative answer is a column whose upper-cased title contains the key with no such column before it; -1 means no column matches |
| Portfolio.FirstMatch | Portfolio.tsx:96-98 | the first matching column is the one `findIndex` returns |
| Portfolio.NoCategoryGoesFirst | Portfolio.tsx:96-99 | a missing or empty category searches for "", which lands in column 0, never the fallback |
| Portfolio.UnmatchedGoesToFallback | Portfolio.tsx:99 | a category no column title contains goes to column 3 |
| Portfolio.SkillLabelShape | Portfolio.tsx:102-107 | the label is the name followed by " (Básico)", " (Intermedio)" or " (Dominado)" for BASIC, INTERMEDIATE, MASTERED, and the bare name otherwise |
| Portfolio.Place | Portfolio.tsx:109-111 | one placement keeps the number of columns and their titles |
| Portfolio.PlaceMembership | Portfolio.tsx:109-111 | after one placement a column holds a skill exactly when it held it before or it is that tool's label routed to that column |
| Portfolio.Bucket | Portfolio.tsx:92-113 | the bucketing keeps the number of columns and their titles |
| Portfolio.BucketExtends | Portfolio.tsx:109-111 | bucketing only appends: each column keeps its old skills, in order, as a prefix |
| Portfolio.BucketMembership | Portfolio.tsx:92-113 | after bucketing, a column holds a skill exactly when it held it before or some tool routes that label to it |
| Portfolio.BucketDistinct | Portfolio.tsx:109 | bucketing never puts a skill twice in a column |
| Portfolio.BucketAllPlaced | Portfolio.tsx:109 | tools whose labels are already in place change nothing |
| Portfolio.BucketPlacesAll | Portfolio.tsx:92-113 | after bucketing, every tool's label is in its target column |
| Portfolio.BucketIdempotent | Portfolio.tsx:92-113 | bucketing twice with the same tools is bucketing once |
| Portfolio.StackTools | Portfolio.tsx:90 | the arsenal filter keeps exactly the non-LEARNING tools |
| Portfolio.LearningTools | Portfolio.tsx:117 | the learning filter keeps exactly the LEARNING tools |
| Portfolio.FiltersPartition | Portfolio.tsx:90-117 | every tool passes exactly one of the two filters |
| Portfolio.NoStackToolsWhenLearning | Portfolio.tsx:90 | with only LEARNING tools the arsenal filter keeps nothing |
| Portfolio.StackToolsAppend | Portfolio.tsx:90 | the arsenal filter keeps order: filtering a concatenation concatenates the filtered parts |
| Portfolio.SkipsLearning | Portfolio.tsx:90 | a LEARNING tool anywhere in a tool list is dropped by the arsenal filter: the list filters as if it were not there |
| Portfolio.LearningNeverStacked | Portfolio.tsx:88-114 | a LEARNING tool anywhere in a mixed tool list leaves the arsenal exactly as bucketing without it would |
| Portfolio.StatusLine | Portfolio.tsx:121 | the status is "ACTUALMENTE: APRENDIENDO " followed by the upper-cased learning line |
| Portfolio.SeedStatusIsStatusLine | constants.tsx:8-28 | the seed hero status is the status line of the seed "currently learning" text |
| Portfolio.SingleLearningToolLine | Portfolio.tsx:117-122 | a single LEARNING tool named "Quarkus" reproduces the seed learning text and hero status |
| Portfolio.ProfileHero | Portfolio.tsx:59-66 | with no profile the hero stays as it was |
| Portfolio.ProfileAbout | Portfolio.tsx:67-73 | with no profile the "about" section stays as it was |
| Portfolio.ProfileOverwritesAll | Portfolio.tsx:59-74 | with a profile, both sections are rebuilt from it alone: the previous hero and "about" play no part, and all ten fields (name, role, manifesto, location, status; title, description, English level, learning text, image) come from their own profile fields |
| Portfolio.LearningOverridesProfile | Portfolio.tsx:58-122 | with a LEARNING tool, the status and learning text come from the joined names and override the profile; without one, the profile's values stand |
| Portfolio.NoToolsNoChange | Portfolio.tsx:88 | with an empty tool list the arsenal and the learning texts are left alone |
| Portfolio.TitlesSelectOwnColumn | Portfolio.tsx:96-98 | when every title is in capitals and none occurs in an earlier one, each title used as a category selects its own column |
| Portfolio.SeedTitlesSelect | constants.tsx:34-51 | each seed column title, used as a skill category, buckets into that very column |
| Portfolio.Category.constructor | constants.tsx:34-51 | an arsenal column object holds its title and skills |
| Portfolio.PortfolioPage.constructor | Portfolio.tsx:34-40 | the page starts with the seed projects, hero and "about" texts, the shared arsenal objects, and loading |
| Portfolio.PortfolioPage.AppendSkill | Portfolio.tsx:110 | the column gets its old skills plus the new one; every other column is untouched |
| Portfolio.PortfolioPage.PlaceTool | Portfolio.tsx:94-111 | one iteration leaves the arsenal at `Place` of its old value |
| Portfolio.PortfolioPage.SyncStack | Portfolio.tsx:90-114 | the loop leaves the arsenal at `Bucket` of its old value with the non-LEARNING tools |
| Portfolio.PortfolioPage.ApplyProjectsAndProfile | Portfolio.tsx:59-85 | the projects become the merged list; the hero and "about" sections are overwritten by a profile when one came back |
| Portfolio.PortfolioPage.StopLoading | Portfolio.tsx:127-129 | `loading` ends false and nothing else changes |
| Portfolio.PortfolioPage.ApplyTools | Portfolio.tsx:88-123 | for a non-empty list the arsenal is bucketed, and with a LEARNING tool the status and learning text are set; projects and loading are untouched |
| Portfolio.PortfolioPage.ShowLearning | Portfolio.tsx:119-121 | the joined names become the learning text and, upper-cased, the hero status |
| Portfolio.PortfolioPage.FetchData | Portfolio.tsx:50-130 | a rejected batch leaves projects, hero, about and arsenal as they were. A resolved batch gives the merged projects, the profile-then-learning hero and about, and the bucketed arsenal. `loading` ends false either way |
| Admin.KeepNonBlank | Admin.tsx:120 | the filter keeps only non-blank entries of its input, never more entries than it was given |
| Admin.KeepNonBlankMembers | Admin.tsx:120 | an entry is kept exactly when it is in the input and not blank |
| Admin.KeepNonBlankAppend | Admin.tsx:120 | the filter keeps order: filtering a concatenation concatenates the filtered parts |
| Admin.KeepNonBlankAll | Admin.tsx:120 | with no blank entry everything is kept |
| Admin.Features | Admin.tsx:120 | every feature sent is non-blank and holds no line break |
| Admin.FeaturesOfJoin | Admin.tsx:120 | the edit form's line-joined features (Admin.tsx:446) split back to the same list |
| Admin.Technologies | Admin.tsx:121 | one entry more than there are commas, each trimmed; empty pieces are kept |
| Admin.TechnologiesCommaFree | Admin.tsx:121 | no technology sent holds a comma |
| Admin.EmptyStackField | Admin.tsx:121 | an empty stack field sends one empty technology, not an empty list |
| Admin.TechnologiesAfterSpace | Admin.tsx:121 | a leading space does not change the list |
| Admin.TechnologiesOfJoin | Admin.tsx:447 | a non-empty list of trimmed comma-free technologies, shown joined by ", ", saves back to the same list |
| Admin.ImageUrls | Admin.tsx:124-128 | at most three URLs, each non-blank and one of the three fields |
| Admin.ImageUrlsKeepFilled | Admin.tsx:124-128 | every non-blank field is sent, and three filled fields are sent in field order |
| Admin.VersionOrDefault | Admin.tsx:129 | the version field when non-empty, else "1.0.0"; never empty |
| Admin.ResaveUnchanged | Admin.tsx:438-459 | opening the editor on a saved project and saving untouched sends the same payload again |
| Admin.ResaveImages | Admin.tsx:453-457 | the three pre-filled image fields give the stored URLs back |
| Admin.ProfilePayload | Admin.tsx:213-225 | the body carries every form field and the loaded profile's id, or 1 when there is none or it is 0 |
| Admin.ProfileSaveIgnoresOldContent | Admin.tsx:213-225 | a profile save is a full replacement: the loaded profile contributes only its id |
| Admin.ProfileResaveUnchanged | Admin.tsx:350-374 | saving the pre-filled profile form sends the loaded profile back unchanged |
| Admin.MasteredReset | Admin.tsx:169-173 | the reset sets the learning text to "Elegir nuevo objetivo..." and the status to "DISPONIBLE PARA NUEVOS RETOS", and changes no other field |
| Admin.EndpointOf | Admin.tsx:72-228 | every panel request but login is a write call of the gateway |
| Admin.ChangesCarryToken | apiService.ts:43-133 | every change the panel requests goes out with the stored token |
| Admin.SaveProjectCall | Admin.tsx:133-137 | an update of the edited project exactly when one is being edited, otherwise a create, carrying the payload |
| Admin.SaveToolCalls | Admin.tsx:164-177 | the tool update or create comes first. A profile reset follows exactly when a successful update masters the skill the loaded profile is learning, and then it is the only extra call |
| Admin.CategoryOptionsSelectColumns | Admin.tsx:480-484 | the skill form's category options are the arsenal titles in order, so each option buckets into its own column |
| Admin.StatusOptionsHandled | Admin.tsx:490-494 | every status option of the skill form is handled by the page: LEARNING exactly when the skill feeds the learning line and stays out of the arsenal, and any other option gives an arsenal label longer than the name, starting with it |
| Admin.NoticeKinds | Admin.tsx:75-232 | the toast style follows the outcome: every completed login, save or deletion shows a success toast, every failed one an error toast, and the logout notice is informational |
| Admin.AdminPanel.constructor | Admin.tsx:15-44 | logged in exactly when a non-empty token is stored, and then the projects tab loads; every other cell starts empty or closed |
| Admin.AdminPanel.Login | Admin.tsx:67-82 | success stores the token, logs in (loading the tab if it was logged out) and clears the error. Failure stores nothing, keeps the session and sets the access-denied error. Only the login call is sent |
| Admin.AdminPanel.Logout | Admin.tsx:84-88 | the token is removed and the session ends |
| Admin.AdminPanel.SwitchTab | Admin.tsx:40-44 | a logged-in panel loads a newly chosen tab; otherwise only the tab changes |
| Admin.AdminPanel.ProfileLoaded | Admin.tsx:53-57 | only the loaded profile changes |
| Admin.AdminPanel.OpenProjectEditor | Admin.tsx:308-329 | the edit target is set (or cleared for a new project) and the form opens |
| Admin.AdminPanel.OpenToolEditor | Admin.tsx:387-400 | the edit target is set (or cleared for a new skill) and the form opens |
| Admin.AdminPanel.CloseProjectEditor | Admin.tsx:434 | only the project form closes |
| Admin.AdminPanel.CloseToolEditor | Admin.tsx:474 | only the skill form closes |
| Admin.AdminPanel.RequestDelete | Admin.tsx:93-107 | pressing delete (for a project, or a skill at lines 190-204) only opens the confirmation; nothing is sent |
| Admin.AdminPanel.Abort | Admin.tsx:528 | the confirmation closes and nothing is sent |
| Admin.AdminPanel.Confirm | Admin.tsx:96-105 | the deletion is sent; on success the tab reloads; the confirmation closes on success and on failure |
| Admin.AdminPanel.SaveProject | Admin.tsx:110-147 | update if a project is being edited, else create. Success closes the form, clears the edit target and reloads. Failure only reports, and the form stays open |
| Admin.AdminPanel.SaveTool | Admin.tsx:152-187 | the calls of `SaveToolCalls`, then the same close-on-success, stay-open-on-failure rule |
| Admin.AdminPanel.SaveProfile | Admin.tsx:209-236 | one full-replacement profile update; success reloads, failure only reports |
| ProjectModal.Images | components/ProjectModal.tsx:17 | a missing image list reads as empty |
| ProjectModal.JsRem | components/ProjectModal.tsx:19 | JavaScript `%` by a positive divisor: the remainder has the sign of the dividend |
| ProjectModal.NextIndex | components/ProjectModal.tsx:16-20 | no images: the index stays. Otherwise, from a valid index, the next one, wrapping from the last to 0 |
| ProjectModal.PrevIndex | components/ProjectModal.tsx:22-26 | no images: the index stays. Otherwise, from a valid index, the previous one, wrapping from 0 to the last |
| ProjectModal.PrevUndoesNext | components/ProjectModal.tsx:16-26 | prev after next, and next after prev, restore the index |
| ProjectModal.NextTimesForward | components/ProjectModal.tsx:19 | below the last image, k presses of next move k forward |
| ProjectModal.NextTimesCompose | components/ProjectModal.tsx:19 | a presses then b presses are a + b presses |
| ProjectModal.FullTurn | components/ProjectModal.tsx:19 | n presses of next over n images return to the start |
| ProjectModal.NavigationNeedsPicture | components/ProjectModal.tsx:48-57 | whenever the navigation buttons show, a picture is shown |
| ProjectModal.Carousel.constructor | components/ProjectModal.tsx:12 | the index starts at 0 |
| ProjectModal.Carousel.Current | components/ProjectModal.tsx:51 | the displayed image is one of the project's images |
| ProjectModal.Carousel.Next | components/ProjectModal.tsx:16-20 | the index moves to `NextIndex` and stays valid |
| ProjectModal.Carousel.Prev | components/ProjectModal.tsx:22-26 | the index moves to `PrevIndex` and stays valid |
| Tables.ListAll | backend/src/main/java/com/sebastian/portfolio/infrastructure/persistence/repository/PanacheProjectRepository.java:27 | `listAll` lists every row once, in the table's listing order (modelled as insertion order) |
| Tables.Insert | backend/src/main/java/com/sebastian/portfolio/infrastructure/persistence/repository/PanacheProjectRepository.java:38 | `persist` stores the row under a fresh id, keeps every other row and grows the table by one |
| Tables.InsertListsLast | backend/src/main/java/com/sebastian/portfolio/infrastructure/persistence/repository/PanacheProjectRepository.java:26-40 | after an insert, `listAll` is the old listing followed by the new row, in the modelled insertion order |
| Tables.Remove | backend/src/main/java/com/sebastian/portfolio/infrastructure/persistence/repository/PanacheProjectRepository.java:61-63 | a delete removes that id only, keeps every other row, and changes nothing for an absent id |
| Tables.RemoveListing | backend/src/main/java/com/sebastian/portfolio/infrastructure/persistence/repository/PanacheProjectRepository.java:61-63 | after a delete, `listAll` is the old listing with that one row cut out, in the modelled insertion order |
| Tables.Replace | backend/src/main/java/com/sebastian/portfolio/infrastructure/persistence/repository/PanacheProjectRepository.java:44-56 | an in-place change keeps the ids and every other row |
| Tables.ReplaceListing | backend/src/main/java/com/sebastian/portfolio/infrastructure/persistence/repository/PanacheProjectRepository.java:44-56 | after an in-place change, `listAll` is the old listing with that row replaced where it stood, in the modelled insertion order |
| ProjectMapper.ToDTO | backend/src/main/java/com/sebastian/portfolio/application/mapper/ProjectMapper.java:9-17 | null exactly for null |
| ProjectMapper.ToDomain | backend/src/main/java/com/sebastian/portfolio/application/mapper/ProjectMapper.java:19-26 | null exactly for null, and `toDTO(toDomain(d)) == d` |
| ProjectMapper.ToDomainOfToDTO | backend/src/main/java/com/sebastian/portfolio/application/mapper/ProjectMapper.java:9-26 | `toDomain(toDTO(p)) == p` on all twelve fields, `id` and `version` included |
| ProjectMapper.ToDTOInjective | backend/src/main/java/com/sebastian/portfolio/application/mapper/ProjectMapper.java:9-17 | two projects with the same DTO are the same project |
| ProjectRepository.ToDomain | backend/src/main/java/com/sebastian/portfolio/infrastructure/persistence/repository/PanacheProjectRepository.java:65-72 | null exactly for null |
| ProjectRepository.ToEntity | backend/src/main/java/com/sebastian/portfolio/infrastructure/persistence/repository/PanacheProjectRepository.java:74-89 | `toDomain(toEntity(p)) == p` |
| ProjectRepository.ToEntityOfToDomain | backend/src/main/java/com/sebastian/portfolio/infrastructure/persistence/repository/PanacheProjectRepository.java:65-89 | writing back a row read from the table gives the same row |
| ProjectRepository.Overwrite | backend/src/main/java/com/sebastian/portfolio/infrastructure/persistence/repository/PanacheProjectRepository.java:44-56 | the row keeps its `id` and `version`, and every other field comes from the project |
| ProjectRepository.OverwriteIgnoresVersion | backend/src/main/java/com/sebastian/portfolio/infrastructure/persistence/repository/PanacheProjectRepository.java:46-55 | the `version` (and `id`) an update carries is never stored |
| ProjectRepository.OverwriteIdempotent | backend/src/main/java/com/sebastian/portfolio/infrastructure/persistence/repository/PanacheProjectRepository.java:46-55 | the same update applied twice equals once |
| ProjectRepository.Domains | backend/src/main/java/com/sebastian/portfolio/infrastructure/persistence/repository/PanacheProjectRepository.java:27 | one project per row, in order |
| ProjectRepository.FindAllAfterSave | backend/src/main/java/com/sebastian/portfolio/infrastructure/persistence/repository/PanacheProjectRepository.java:26-40 | a saved project is listed last by `findAll`, with its new id, in the modelled insertion order |
| ProjectRepository.PanacheProjectRepository.FindAll | backend/src/main/java/com/sebastian/portfolio/infrastructure/persistence/repository/PanacheProjectRepository.java:26-28 | one project per row, in `listAll` order |
| ProjectRepository.PanacheProjectRepository.FindById | backend/src/main/java/com/sebastian/portfolio/infrastructure/persistence/repository/PanacheProjectRepository.java:31-33 | present exactly when the id is stored, and then the mapped row with that id |
| ProjectRepository.PanacheProjectRepository.Save | backend/src/main/java/com/sebastian/portfolio/infrastructure/persistence/repository/PanacheProjectRepository.java:36-40 | a project without id is inserted under the next id and returned with it; one with an id is refused and the table is unchanged |
| ProjectRepository.PanacheProjectRepository.Update | backend/src/main/java/com/sebastian/portfolio/infrastructure/persistence/repository/PanacheProjectRepository.java:43-58 | a stored id gets its ten content fields overwritten in place and the row is returned; an absent id changes nothing and returns null |
| ProjectRepository.PanacheProjectRepository.DeleteById | backend/src/main/java/com/sebastian/portfolio/infrastructure/persistence/repository/PanacheProjectRepository.java:61-63 | the table becomes `Remove` of that id |
| ProjectRepository.UpdatedRow | backend/src/main/java/com/sebastian/portfolio/infrastructure/persistence/repository/PanacheProjectRepository.java:43-58 | an updated row reads back as the update with the stored version |
| ProjectRepository.RowsCarryIdsKept | backend/src/main/java/com/sebastian/portfolio/infrastructure/persistence/repository/PanacheProjectRepository.java:36-63 | save, update and delete keep every row's id equal to the id it is stored under |
| ProjectService.WithPathId | backend/src/main/java/com/sebastian/portfolio/application/service/ProjectService.java:63-66 | the project handed to the repository has the path id and otherwise the DTO's fields |
| ProjectService.PathIdWins | backend/src/main/java/com/sebastian/portfolio/application/service/ProjectService.java:63-67 | the id inside the DTO of an update plays no part |
| ProjectService.DTOs | backend/src/main/java/com/sebastian/portfolio/application/service/ProjectService.java:32-36 | one DTO per project, in order |
| ProjectService.ProjectService.GetAllProjects | backend/src/main/java/com/sebastian/portfolio/application/service/ProjectService.java:32-36 | one DTO per stored project, in repository order |
| ProjectService.ProjectService.GetProjectById | backend/src/main/java/com/sebastian/portfolio/application/service/ProjectService.java:42-46 | the stored row's DTO exactly when the id is stored, else the "Proyecto no encontrado" failure |
| ProjectService.ProjectService.CreateProject | backend/src/main/java/com/sebastian/portfolio/application/service/ProjectService.java:53-56 | the project is inserted and the answer is the request with the new id |
| ProjectService.ProjectService.UpdateProject | backend/src/main/java/com/sebastian/portfolio/application/service/ProjectService.java:63-67 | the path id's row is overwritten and the answer is the request with the path id and the stored version; an absent id answers null and changes nothing |
| ProjectService.ProjectService.DeleteProject | backend/src/main/java/com/sebastian/portfolio/application/service/ProjectService.java:74-76 | only that project goes |
| ProjectService.UpdateThenGet | backend/src/main/java/com/sebastian/portfolio/application/service/ProjectService.java:63-67 | reading an updated project back gives the DTO the update answered with |
| LearningToolMapper.ToDTO | backend/src/main/java/com/sebastian/portfolio/application/mapper/LearningToolMapper.java:9-12 | the DTO carries the tool's id |
| LearningToolMapper.ToDomain | backend/src/main/java/com/sebastian/portfolio/application/mapper/LearningToolMapper.java:14-16 | `toDTO(toDomain(d)) == d` |
| LearningToolMapper.ToDomainOfToDTO | backend/src/main/java/com/sebastian/portfolio/application/mapper/LearningToolMapper.java:9-16 | `toDomain(toDTO(t)) == t` on all five fields |
| LearningToolMapper.ToDTOInjective | backend/src/main/java/com/sebastian/portfolio/application/mapper/LearningToolMapper.java:9-12 | two tools with the same DTO are the same tool |
| LearningToolRepository.ToDomain | backend/src/main/java/com/sebastian/portfolio/infrastructure/persistence/repository/PanacheLearningToolRepository.java:59-63 | null exactly for null |
| LearningToolRepository.ToEntity | backend/src/main/java/com/sebastian/portfolio/infrastructure/persistence/repository/PanacheLearningToolRepository.java:65-73 | `toDomain(toEntity(t)) == t` |
| LearningToolRepository.ToEntityOfToDomain | backend/src/main/java/com/sebastian/portfolio/infrastructure/persistence/repository/PanacheLearningToolRepository.java:59-73 | writing back a row read from the table gives the same row |
| LearningToolRepository.Overwrite | backend/src/main/java/com/sebastian/portfolio/infrastructure/persistence/repository/PanacheLearningToolRepository.java:44-50 | the row keeps its id, and name, category, status and progress come from the tool |
| LearningToolRepository.OverwriteIdempotent | backend/src/main/java/com/sebastian/portfolio/infrastructure/persistence/repository/PanacheLearningToolRepository.java:46-49 | the same update applied twice equals once |
| LearningToolRepository.Domains | backend/src/main/java/com/sebastian/portfolio/infrastructure/persistence/repository/PanacheLearningToolRepository.java:27 | one tool per row, in order |
| LearningToolRepository.DomainsAppend | backend/src/main/java/com/sebastian/portfolio/infrastructure/persistence/repository/PanacheLearningToolRepository.java:27 | mapping a concatenation concatenates the mapped parts |
| LearningToolRepository.FindAllAfterSave | backend/src/main/java/com/sebastian/portfolio/infrastructure/persistence/repository/PanacheLearningToolRepository.java:26-40 | a saved tool is listed last by `findAll`, with its new id, in the modelled insertion order |
| LearningToolRepository.PanacheLearningToolRepository.FindAll | backend/src/main/java/com/sebastian/portfolio/infrastructure/persistence/repository/PanacheLearningToolRepository.java:26-28 | one tool per row, in `listAll` order |
| LearningToolRepository.PanacheLearningToolRepository.FindById | backend/src/main/java/com/sebastian/portfolio/infrastructure/persistence/repository/PanacheLearningToolRepository.java:31-33 | present exactly when the id is stored, and then the mapped row with that id |
| LearningToolRepository.PanacheLearningToolRepository.Save | backend/src/main/java/com/sebastian/portfolio/infrastructure/persistence/repository/PanacheLearningToolRepository.java:36-40 | a tool without id is inserted under the next id and returned with it; one with an id is refused and the table is unchanged |
| LearningToolRepository.PanacheLearningToolRepository.Update | backend/src/main/java/com/sebastian/portfolio/infrastructure/persistence/repository/PanacheLearningToolRepository.java:43-52 | a stored id gets its four fields overwritten in place and the tool is returned; an absent id changes nothing and returns null |
| LearningToolRepository.PanacheLearningToolRepository.DeleteById | backend/src/main/java/com/sebastian/portfolio/infrastructure/persistence/repository/PanacheLearningToolRepository.java:55-57 | the table becomes `Remove` of that id |
| LearningToolService.WithPathId | backend/src/main/java/com/sebastian/portfolio/application/service/LearningToolService.java:46-49 | the tool handed to the repository has the path id and otherwise the DTO's fields |
| LearningToolService.PathIdWins | backend/src/main/java/com/sebastian/portfolio/application/service/LearningToolService.java:46-50 | the id inside the DTO of an update plays no part |
| LearningToolService.DTOs | backend/src/main/java/com/sebastian/portfolio/application/service/LearningToolService.java:24-28 | one DTO per tool, in order |
| LearningToolService.LearningToolService.GetAllTools | backend/src/main/java/com/sebastian/portfolio/application/service/LearningToolService.java:24-28 | one DTO per stored tool, in repository order |
| LearningToolService.LearningToolService.GetToolById | backend/src/main/java/com/sebastian/portfolio/application/service/LearningToolService.java:31-35 | the stored row's DTO exactly when the id is stored, else the "Tool not found" failure |
| LearningToolService.LearningToolService.CreateTool | backend/src/main/java/com/sebastian/portfolio/application/service/LearningToolService.java:39-42 | the tool is inserted and the answer is the request with the new id |
| LearningToolService.LearningToolService.UpdateTool | backend/src/main/java/com/sebastian/portfolio/application/service/LearningToolService.java:46-50 | the path id's row is overwritten and the answer is the request with the path id; an absent id changes nothing and fails on the null the mapper dereferences |
| LearningToolService.LearningToolService.DeleteTool | backend/src/main/java/com/sebastian/portfolio/application/service/LearningToolService.java:54-56 | only that tool goes |
| LearningToolService.UpdateThenGet | backend/src/main/java/com/sebastian/portfolio/application/service/LearningToolService.java:46-50 | reading an updated tool back gives the DTO the update answered with |
| ContactMapper.ContactMessage.SetId | backend/src/main/java/com/sebastian/portfolio/infrastructure/persistence/repository/PanacheContactRepository.java:32 | only the message's id changes |
| ContactMapper.ToDTO | backend/src/main/java/com/sebastian/portfolio/application/mapper/ContactMapper.java:9-12 | the DTO carries the message's id and time |
| ContactMapper.ToDomain | backend/src/main/java/com/sebastian/portfolio/application/mapper/ContactMapper.java:14-16 | a new message whose DTO is the input |
| ContactMapper.RoundTrip | backend/src/main/java/com/sebastian/portfolio/application/mapper/ContactMapper.java:9-16 | a message rebuilt from its DTO holds the same five fields |
| ContactRepository.Row | backend/src/main/java/com/sebastian/portfolio/infrastructure/persistence/repository/PanacheContactRepository.java:26-30 | the stored row has the assigned id and the message's other four fields |
| ContactRepository.RowIgnoresIncomingId | backend/src/main/java/com/sebastian/portfolio/infrastructure/persistence/repository/PanacheContactRepository.java:26-30 | the incoming id is not copied |
| ContactRepository.PanacheContactRepository.Save | backend/src/main/java/com/sebastian/portfolio/infrastructure/persistence/repository/PanacheContactRepository.java:25-34 | one new row under the next id. The caller's message gets that id, keeps its other fields, and is returned |
| ContactRepository.PanacheContactRepository.FindAll | backend/src/main/java/com/sebastian/portfolio/infrastructure/persistence/repository/PanacheContactRepository.java:37-39 | a new message per row, in `listAll` order, holding all five fields of its row |
| ContactRepository.Entity | backend/src/main/java/com/sebastian/portfolio/infrastructure/persistence/repository/PanacheContactRepository.java:41-43 | the row a message object holds carries its id |
| ProfileResource.DefaultIsSeed | backend/src/main/java/com/sebastian/portfolio/presentation/rest/ProfileResource.java:29-40 | the default profile's ten texts are the front end's seed hero and "about" texts |
| ProfileResource.Map | backend/src/main/java/com/sebastian/portfolio/presentation/rest/ProfileResource.java:72-75 | the DTO has the row's id and writing it back gives the row |
| ProfileResource.Written | backend/src/main/java/com/sebastian/portfolio/presentation/rest/ProfileResource.java:52-66 | the row written has the given id |
| ProfileResource.MapWritten | backend/src/main/java/com/sebastian/portfolio/presentation/rest/ProfileResource.java:57-75 | a written row reads back as the DTO with the row's id |
| ProfileResource.ProfileResource.Get | backend/src/main/java/com/sebastian/portfolio/presentation/rest/ProfileResource.java:25-43 | row 1 when it exists, else the default; the answer always has id 1 |
| ProfileResource.ProfileResource.Update | backend/src/main/java/com/sebastian/portfolio/presentation/rest/ProfileResource.java:51-70 | row 1 (created if missing) gets all ten fields of the DTO, whose id is ignored. No other row changes. The answer, and the next `get`, is the DTO with id 1 |
| ProfileResource.UpdateReplacesWhole | backend/src/main/java/com/sebastian/portfolio/presentation/rest/ProfileResource.java:57-66 | two updates with the same content leave the same row, whatever was there before |
| AuthResource.FindByUsername | backend/src/main/java/com/sebastian/portfolio/presentation/rest/AuthResource.java:28 | a stored user with exactly that name; absent exactly when no user has it |
| AuthResource.Login | backend/src/main/java/com/sebastian/portfolio/presentation/rest/AuthResource.java:25-43 | 200 exactly when the user exists and the password is equal, with the body holding the token signed for that user's name and role; otherwise 401 with no body |
| AuthResource.UnknownLooksLikeWrongPassword | backend/src/main/java/com/sebastian/portfolio/presentation/rest/AuthResource.java:34-42 | an unknown name gets the very answer a wrong password gets, 401 |
| AuthResource.StoredPasswordLogsIn | backend/src/main/java/com/sebastian/portfolio/presentation/rest/AuthResource.java:28-33 | with unique names, a user's own password yields 200 with a body whose only key is "token" |
| AuthResource.FindFirst | backend/src/main/java/com/sebastian/portfolio/presentation/rest/AuthResource.java:28 | with unique names, the lookup finds the stored user |

## Left out

- Tables.ListAll: the listing order is modelled as insertion order, with updates in place. The query behind `listAll` (PanacheProjectRepository.java:27, PanacheLearningToolRepository.java:27, PanacheContactRepository.java:38) has no ORDER BY, so the database does not promise any order, and the front end shows back-end projects in whatever order arrives.
- Tables.InsertListsLast: "a new row is listed last" holds only under the modelled insertion order, not for the unordered SQL query.
- Tables.ReplaceListing: "an updated row stays where it stood" holds only under the modelled insertion order; the database may return an updated row anywhere.
- Tables.RemoveListing: the remaining rows keep their relative order only under the modelled insertion order.
- ProjectRepository.FindAllAfterSave: "a saved project is listed last" rests on the same modelled insertion order.
- LearningToolRepository.FindAllAfterSave: "a saved tool is listed last" rests on the same modelled insertion order.
- The HTTP requests, `res.json()`, `localStorage` and `import.meta.env`. Responses, the stored token and the configured base URL are inputs to the model.
- `Promise.all` scheduling in `fetchData`. The three fetches are one batch that either resolves with all three results or rejects.
- JSX rendering, styling, scrolling, the public contact form, `SKILLS_MINDSET` and the toast timer. They are presentation only. The toast's text and style are modelled as a notice value.
- Browser validation of `required` form fields. The model takes the submitted values as given.
- Number parsing of the skill form's progress field. The model takes the progress as an integer.
- The lists the admin panel's `loadData` fills. A load is one `LoadData` entry in the call log; only the loaded profile is kept as state.
- JSON null and absent keys are one case (`None`). The model does not tell them apart.
- Java nulls other than the ids and the whole-record nulls the project mapper handles are not modelled. Strings and lists are plain values.
- `createdAt` is an abstract integer. The clock is not modelled.
- ContactService (mail sending, the clock), TokenService and PanacheUserRepository. The token is signed by a function parameter. The user query is a first-match lookup over a list of users.
- The REST resources for projects, skills, contact messages and health. The model covers the services they call.
- The profile save is sent as POST (apiService.ts:127), but the profile resource only serves PUT for updates (ProfileResource.java:48). The front-end and back-end models are kept separate, so this mismatch is recorded here and not modelled.
- ContactMessage.java, LearningToolDTO.java and LoginDTO.java are not part of this model. Their fields are taken from the mappers and resources that use them.
- Text.Upper: only a–z (U+0061–U+007A) and U+00E0–U+00FE except U+00F7 are upper-cased; every other character is left as it is. That covers every title and category the source compares, but not the full Unicode mapping of `toUpperCase`: for example ß (U+00DF) becomes "SS" and ÿ (U+00FF) becomes Ÿ there, while the model leaves both unchanged.
- ProjectRepository.PanacheProjectRepository.Save: `persist` of an entity that already has an id is modelled as a `Failure`. In the source Hibernate throws, because the entity counts as detached.
- ProjectRepository.PanacheProjectRepository.Update: requires an id. `findById` with a null id throws in the source.
- LearningToolRepository.PanacheLearningToolRepository.Update: requires an id, for the same reason.
- LearningToolMapper.ToDTO: the arguments are never null. The source's null argument is a NullPointerException, which the service's `UpdateTool` models as a failure.
- Admin.AdminPanel.SaveProject: takes the payload that `Admin.ProjectPayloadOf` builds from the submitted form, not the form itself. The builders are proved separately.
- Admin.AdminPanel.Login: the error text is the `denied` flag, and the username and password inputs are parameters.
