/**
 * The records shared by the feedback engine, the competence aggregator and
 * the scenario controller (types.ts). Numbers that the source keeps as
 * JavaScript numbers are integers here.
 */
module Types {

  datatype Option<+T> = None | Some(value: T)

  datatype Result<+T, +E> = Success(value: T) | Failure(error: E)

  /** The five severity grades a feedback item may carry. */
  datatype FeedbackSeverity = Positive | Neutral | Negative | Critical | Advisory

  /** One judged aspect of a user action; `score` is meant to lie in -5..+5. */
  datatype DetailedFeedbackDimension = DetailedFeedbackDimension(
    dimension: string,
    score: int,
    explanation: string,
    severity: FeedbackSeverity,
    recommendations: seq<string>)

  /** The structured judgment of one user action; `competenceImpact` is meant to lie in -25..+25. */
  datatype CompleteInteractionFeedback = CompleteInteractionFeedback(
    aiResponse: string,
    feedbackSummary: string,
    severity: FeedbackSeverity,
    detailedFeedback: seq<DetailedFeedbackDimension>,
    competenceImpact: int)

  /** A user: per-culture competence scores and the overall score derived from them. */
  datatype UserCulturalProfile = UserCulturalProfile(
    userId: string,
    username: string,
    originCultureId: string,
    culturalCompetenceScore: map<string, int>,
    overallCompetence: int)

  datatype ScenarioCategory = Business | Social | Academic | Personal | Diplomacy

  datatype Difficulty = Beginner | Intermediate | Advanced

  /** A scenario definition; the controller uses only its opening narrative. */
  datatype ScenarioTemplate = ScenarioTemplate(
    id: string,
    title: string,
    description: string,
    category: ScenarioCategory,
    difficulty: Difficulty,
    objectives: seq<string>,
    initialSituation: string)

  /** The author of a turn: the user, or the simulated counterpart (`model`). */
  datatype Role = User | Model

  /** One entry of a session transcript; counterpart replies carry their feedback. */
  datatype Turn = Turn(role: Role, content: string, feedback: Option<CompleteInteractionFeedback>)

  /** A transcript entry as it is handed to the feedback engine: feedback stripped. */
  datatype ChatMessage = ChatMessage(role: Role, content: string)
}
