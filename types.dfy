/** The shapes the front end works with: the seed/display records of
    types.ts and the JSON records the back end returns for a profile and a
    learning tool. */
module Types {
  import opened Wrappers

  /** One carousel picture; `imageType` is the TypeScript field `type`. */
  datatype ProjectImage = ProjectImage(url: string, caption: string, imageType: string)

  /** A project as the seed catalog declares it. */
  datatype Project = Project(
    id: string,
    title: string,
    category: string,
    stack: seq<string>,
    description: string,
    problem: string,
    learning: string,
    features: seq<string>,
    githubUrl: string,
    liveUrl: string,
    images: seq<ProjectImage>,
    version: string)

  /** One column of the skill arsenal. */
  datatype TechCategory = TechCategory(title: string, skills: seq<string>)

  /** The hero section. */
  datatype Hero = Hero(name: string, role: string, manifesto: string, location: string, status: string)

  /** The "about me" section. */
  datatype About = About(
    title: string,
    description: string,
    englishLevel: string,
    currentlyLearning: string,
    profileImage: string)

  /** The profile as the back end sends it (the JSON of its profile record). */
  datatype ProfileRecord = ProfileRecord(
    id: int,
    name: string,
    role: string,
    manifesto: string,
    location: string,
    status: string,
    aboutTitle: string,
    aboutDescription: string,
    englishLevel: string,
    currentlyLearning: string,
    profileImage: string)

  /** A learning tool (skill) as the back end sends it; `category` may be
      null or absent. */
  datatype ToolRecord = ToolRecord(id: int, name: string, category: Option<string>, status: string, progress: int)
}
