/** The records the back end passes between its layers: the domain objects
    (domain/model), the DTOs of the REST layer (application/dto) and the JPA
    entities (infrastructure/persistence/entity). They carry no behaviour.
    A Java reference the code tests for null is an `Option` (the ids, which
    are null until the identity column assigns one); the other strings and
    lists are plain values. */
module Backend {
  import opened Wrappers

  /** `Project` of the domain model. */
  datatype Project = Project(
    id: Option<int>,
    title: string,
    description: string,
    technologies: seq<string>,
    problem: string,
    learning: string,
    features: seq<string>,
    architecture: string,
    githubUrl: string,
    demoUrl: string,
    imageUrls: seq<string>,
    version: string)

  /** `ProjectDTO`, the JSON record of a project. */
  datatype ProjectDTO = ProjectDTO(
    id: Option<int>,
    title: string,
    description: string,
    technologies: seq<string>,
    problem: string,
    learning: string,
    features: seq<string>,
    architecture: string,
    githubUrl: string,
    demoUrl: string,
    imageUrls: seq<string>,
    version: string)

  /** `ProjectEntity`, a row of the `projects` table. */
  datatype ProjectEntity = ProjectEntity(
    id: Option<int>,
    title: string,
    description: string,
    technologies: seq<string>,
    problem: string,
    learning: string,
    features: seq<string>,
    architecture: string,
    githubUrl: string,
    demoUrl: string,
    imageUrls: seq<string>,
    version: string)

  /** `LearningTool` of the domain model (a skill of the arsenal). */
  datatype LearningTool = LearningTool(id: Option<int>, name: string, category: string, status: string, progress: int)

  /** The JSON record of a learning tool. */
  datatype LearningToolDTO = LearningToolDTO(id: Option<int>, name: string, category: string, status: string, progress: int)

  /** `LearningToolEntity`, a row of the `learning_tools` table. */
  datatype LearningToolEntity = LearningToolEntity(id: Option<int>, name: string, category: string, status: string, progress: int)

  /** `ContactDTO`; `createdAt` is the timestamp, kept abstract. */
  datatype ContactDTO = ContactDTO(id: Option<int>, name: string, email: string, message: string, createdAt: int)

  /** `ContactMessageEntity`, a row of the `contact_messages` table. */
  datatype ContactMessageEntity = ContactMessageEntity(id: Option<int>, name: string, email: string, message: string, createdAt: int)

  /** `ProfileDTO`, the JSON record of the portfolio profile. */
  datatype ProfileDTO = ProfileDTO(
    id: Option<int>,
    name: string,
    role: string,
    manifesto: string,
    location: string,
    status: string,
    aboutTitle: string,
    aboutDescription: string,
    englishLevel: string,
    currentlyLearning: string,
    profileImage: string)

  /** `ProfileEntity`, a row of the `portfolio_profile` table (its id is
      assigned by the code, not generated). */
  datatype ProfileEntity = ProfileEntity(
    id: int,
    name: string,
    role: string,
    manifesto: string,
    location: string,
    status: string,
    aboutTitle: string,
    aboutDescription: string,
    englishLevel: string,
    currentlyLearning: string,
    profileImage: string)

  /** `UserEntity`, a row of the `users` table. */
  datatype UserEntity = UserEntity(id: int, username: string, password: string, role: string)

  /** The login request body. */
  datatype LoginDTO = LoginDTO(username: string, password: string)
}
