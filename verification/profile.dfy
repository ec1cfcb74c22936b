/** The assessment record the wizard collects (`formData`), with the shapes the
    step components write. Absent fields are represented by their `|| []`
    defaults, since every reader treats an absent list as an empty one. */
module Profile {

  /** Sign class of a task's energy impact. */
  datatype Impact = Negative | Neutral | Positive

  /** Skill band of a task. */
  datatype SkillLevel = Low | Medium | High

  /** The derived fields `calculateTaskMetrics` adds to a task. */
  datatype Metrics = Metrics(enjoyment: int, impact: int, impactCategory: Impact,
                             skillCategory: SkillLevel, matrixCell: string)

  /** A work task rated on the energy/skill matrix. */
  datatype Task = Task(id: int, name: string, energy: int, skill: int,
                       currentTime: int, futureTime: int, metrics: Metrics)

  /** A ranked work requirement; `rank` and `currentMatch` are 0 when unset. */
  datatype Requirement = Requirement(id: string, name: string, category: string,
                                     rank: int, importance: string, currentMatch: int)

  /** A problem analysed with five "why" questions. */
  datatype Problem = Problem(id: int, problem: string, category: string, whys: seq<string>,
                             rootCause: string, nextStep: string, createdAt: string)

  /** Strengths the user noted for one high-skill task. */
  datatype WorkStrength = WorkStrength(taskId: int, taskName: string, strengths: seq<string>)

  /** Strengths a friend named. */
  datatype Friend = Friend(name: string, strengths: seq<string>)

  datatype Strengths = Strengths(fromWork: seq<WorkStrength>, fromTests: seq<string>,
                                 fromFriends: seq<Friend>)

  /** Every strength of the work entries, entry by entry. */
  function FlatWork(work: seq<WorkStrength>): seq<string>
  {
    if work == [] then [] else FlatWork(work[..|work| - 1]) + work[|work| - 1].strengths
  }

  /** Every strength friends named, friend by friend. */
  function FlatFriends(friends: seq<Friend>): seq<string>
  {
    if friends == [] then [] else FlatFriends(friends[..|friends| - 1]) + friends[|friends| - 1].strengths
  }

  datatype Values = Values(all: seq<string>, top10: seq<string>, top5: seq<string>)

  /** Wheel of life: a score in -3..3 per life area, plus free-text justifications. */
  datatype Wheel = Wheel(scores: map<string, int>, justifications: map<string, string>)

  /** Dream-job answers; `categories` and `vision` are objects kept in key order. */
  datatype DreamJob = DreamJob(selectedArchetypes: seq<string>, themes: seq<string>,
                               categories: seq<(string, int)>, vision: seq<(string, string)>)

  datatype FormData = FormData(fiveWhyProblems: seq<Problem>, workTasks: seq<Task>,
                               workRequirements: seq<Requirement>, values: Values,
                               wheelOfLife: Wheel, strengths: Strengths, dreamJob: DreamJob)

  /** The eight life areas, in the order every component lists them. */
  const LifeAreas: seq<string> := ["health", "career", "relationships", "personalGrowth",
                                   "finances", "funRecreation", "spirituality", "environment"]
}
