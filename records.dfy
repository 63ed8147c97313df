/**
 * The two stored records: a project and one analysis of it. Ownership
 * (the `user` foreign keys) is not modelled; `created_at` is a point in
 * time ordered by its microsecond count.
 */
module Records {

  datatype Timestamp = Timestamp(microseconds: int)

  /** A project as its owner entered it. `budget` is a non-negative integer field. */
  datatype Project = Project(
    name: string,
    description: string,
    platform: string,
    techStack: string,
    scale: string,
    budget: nat,
    riskLevel: string,
    createdAt: Timestamp)

  /** One stored report for a project, with its score and category. */
  datatype Analysis = Analysis(
    project: Project,
    architecture: string,
    threatModel: string,
    costEstimation: string,
    sdlsRecommendations: string,
    testingPlan: string,
    createdAt: Timestamp,
    securityScore: int,
    riskCategory: string)

  /** The category an analysis carries before it has been scored. */
  const UnscoredCategory := "Unknown"

  /** A freshly created analysis: the report fields as given, the score and category at their defaults. */
  function NewAnalysis(
    project: Project, architecture: string, threatModel: string, costEstimation: string,
    sdlsRecommendations: string, testingPlan: string, createdAt: Timestamp): (a: Analysis)
    ensures a.securityScore == 0 && a.riskCategory == UnscoredCategory
    ensures a.project == project && a.createdAt == createdAt
  {
    Analysis(project, architecture, threatModel, costEstimation, sdlsRecommendations, testingPlan,
             createdAt, 0, UnscoredCategory)
  }
}
