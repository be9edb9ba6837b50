/** The processing presenter: a fixed table from sub-stage to caption and progress. */
module ProcessingLoader {

  datatype ProcessingStage = Uploading | Analyzing | Optimizing | Finalizing

  /** The order in which the wizard walks the sub-stages. */
  const Pipeline: seq<ProcessingStage> := [Uploading, Analyzing, Optimizing, Finalizing]

  /** Position of a sub-stage in Pipeline. */
  function Rank(s: ProcessingStage): (k: nat)
    ensures k < |Pipeline| && Pipeline[k] == s
  {
    match s
    case Uploading => 0
    case Analyzing => 1
    case Optimizing => 2
    case Finalizing => 3
  }

  datatype StageInfo = StageInfo(text: string, progress: nat)

  /**
   * The `stages` table read at one key. It is total, every progress lies
   * strictly between 0 and 100, and each stage's is 25 more than the one
   * before except the last, which stops at 95 instead of reaching 100.
   */
  function Lookup(s: ProcessingStage): (info: StageInfo)
    ensures 0 < info.progress < 100
    ensures info.text != []
    ensures s != Finalizing ==> info.progress == 25 * (Rank(s) + 1)
    ensures s == Finalizing ==> info.progress == 95
  {
    match s
    case Uploading => StageInfo("Carregando sua imagem...", 25)
    case Analyzing => StageInfo("Analisando contexto...", 50)
    case Optimizing => StageInfo("Otimizando imagem...", 75)
    case Finalizing => StageInfo("Finalizando...", 95)
  }

  /** Progress rises strictly with stage order, in both directions. */
  lemma ProgressFollowsOrder(s: ProcessingStage, t: ProcessingStage)
    ensures Rank(s) < Rank(t) <==> Lookup(s).progress < Lookup(t).progress
  {
  }

  /** Along the pipeline the shown progress strictly increases and never reaches 100. */
  lemma PipelineProgressIncreases(i: nat, j: nat)
    requires i < j < |Pipeline|
    ensures Lookup(Pipeline[i]).progress < Lookup(Pipeline[j]).progress < 100
  {
    ProgressFollowsOrder(Pipeline[i], Pipeline[j]);
  }
}
