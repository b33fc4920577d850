/**
 * The analysis progress panel: the stage named for a progress value (an if/else chain of
 * upper bounds 20, 40, 60 and 80) and the completion notice shown at exactly 100.
 */
module AnalysisProgress {

  datatype Stage = FaceDetection | FeatureAnalysis | SkinAnalysis | Recommendations | HealthInsights

  /** `getStageInfo`, by the stage it names. */
  function StageOf(progress: int): (s: Stage)
    ensures s == FaceDetection <==> progress <= 20
    ensures s == FeatureAnalysis <==> 20 < progress <= 40
    ensures s == SkinAnalysis <==> 40 < progress <= 60
    ensures s == Recommendations <==> 60 < progress <= 80
    ensures s == HealthInsights <==> progress > 80
  {
    if progress <= 20 then FaceDetection
    else if progress <= 40 then FeatureAnalysis
    else if progress <= 60 then SkinAnalysis
    else if progress <= 80 then Recommendations
    else HealthInsights
  }

  /** The position of a stage in the pipeline. */
  function Order(s: Stage): nat
  {
    match s
    case FaceDetection => 0
    case FeatureAnalysis => 1
    case SkinAnalysis => 2
    case Recommendations => 3
    case HealthInsights => 4
  }

  /** More progress never shows an earlier stage. */
  lemma StageMonotone(a: int, b: int)
    requires a <= b
    ensures Order(StageOf(a)) <= Order(StageOf(b))
  {
  }

  /** The "Analysis Complete!" notice. */
  predicate CompletionShown(progress: int)
  {
    progress == 100
  }

  /** The notice appears only in the last stage. */
  lemma CompletionOnlyInLastStage(progress: int)
    ensures CompletionShown(progress) ==> StageOf(progress) == HealthInsights
    ensures StageOf(progress) != HealthInsights ==> !CompletionShown(progress)
  {
  }
}
