/** The keys of the reasoning-training section: their names, which are bare and told apart, and the printing order. */
module ReasoningKeys {
  import opened Prelude
  import T = Toml

  datatype Key =
    | MiningEnabled | InjectionEnabled | MiningModels | Categories | MinTraceChars | MaxTraceChars | ScanLookbackDays
    | RetentionDays | MaxTracesTotal | MinClusterSupport | ClusterCosine | MinConfidence | MinPatternsPerCategory
    | InjectionMaxPatterns | InjectionMaxChars | DistillUseLlm | DistillLlmModel | DistillLlmEndpoint | AllowRemoteEndpoints
    | DistillLlmUnloadCmd | DistillLlmLoadCmd | RedactSecrets | InjectionMap | PatternTargets | ExtraTranscriptDirs
    | InjectionMinQuality

  function Name(k: Key): string {
    match k
    case MiningEnabled => "mining_enabled"
    case InjectionEnabled => "injection_enabled"
    case MiningModels => "mining_models"
    case Categories => "categories"
    case MinTraceChars => "min_trace_chars"
    case MaxTraceChars => "max_trace_chars"
    case ScanLookbackDays => "scan_lookback_days"
    case RetentionDays => "retention_days"
    case MaxTracesTotal => "max_traces_total"
    case MinClusterSupport => "min_cluster_support"
    case ClusterCosine => "cluster_cosine"
    case MinConfidence => "min_confidence"
    case MinPatternsPerCategory => "min_patterns_per_category"
    case InjectionMaxPatterns => "injection_max_patterns"
    case InjectionMaxChars => "injection_max_chars"
    case DistillUseLlm => "distill_use_llm"
    case DistillLlmModel => "distill_llm_model"
    case DistillLlmEndpoint => "distill_llm_endpoint"
    case AllowRemoteEndpoints => "allow_remote_endpoints"
    case DistillLlmUnloadCmd => "distill_llm_unload_cmd"
    case DistillLlmLoadCmd => "distill_llm_load_cmd"
    case RedactSecrets => "redact_secrets"
    case InjectionMap => "injection_map"
    case PatternTargets => "pattern_targets"
    case ExtraTranscriptDirs => "extra_transcript_dirs"
    case InjectionMinQuality => "injection_min_quality"
  }

  /** The keys in the order they are printed under the section header. */
  const PRINTED: seq<Key> := [
    MiningEnabled, InjectionEnabled, MiningModels, Categories, MinTraceChars, MaxTraceChars, ScanLookbackDays,
    RetentionDays, MaxTracesTotal, MinClusterSupport, ClusterCosine, MinConfidence, MinPatternsPerCategory,
    InjectionMaxPatterns, InjectionMaxChars, DistillUseLlm, DistillLlmModel, DistillLlmEndpoint, AllowRemoteEndpoints,
    DistillLlmUnloadCmd, DistillLlmLoadCmd, RedactSecrets]

  /** The key of a name, found by its length and, where that is not enough, one character. */
  function KeyNamed(name: string): Option<Key> {
    match |name|
    case 10 => Some(Categories)
    case 13 => if name[0] == 'm' then Some(MiningModels) else Some(InjectionMap)
    case 14 =>
      match name[3] {
        case 'i' => Some(MiningEnabled)
        case 'e' => Some(RetentionDays)
        case 's' => Some(ClusterCosine)
        case '_' => Some(MinConfidence)
        case _ => Some(RedactSecrets)
      }
    case 15 =>
      match name[2] {
        case 'n' => Some(MinTraceChars)
        case 'x' => Some(MaxTraceChars)
        case 's' => Some(DistillUseLlm)
        case _ => Some(PatternTargets)
      }
    case 16 => Some(MaxTracesTotal)
    case 17 => if name[0] == 'i' then Some(InjectionEnabled) else Some(DistillLlmModel)
    case 18 => Some(ScanLookbackDays)
    case 19 => if name[0] == 'm' then Some(MinClusterSupport) else Some(InjectionMaxChars)
    case 20 => if name[12] == 'e' then Some(DistillLlmEndpoint) else Some(DistillLlmLoadCmd)
    case 21 => if name[0] == 'e' then Some(ExtraTranscriptDirs) else Some(InjectionMinQuality)
    case 22 =>
      match name[0] {
        case 'i' => Some(InjectionMaxPatterns)
        case 'a' => Some(AllowRemoteEndpoints)
        case _ => Some(DistillLlmUnloadCmd)
      }
    case 25 => Some(MinPatternsPerCategory)
    case _ => None
  }

  lemma FirstNamesBack(k: Key)
    requires k.MiningEnabled? || k.InjectionEnabled? || k.MiningModels? || k.Categories? || k.MinTraceChars?
      || k.MaxTraceChars? || k.ScanLookbackDays? || k.RetentionDays? || k.MaxTracesTotal?
    ensures KeyNamed(Name(k)) == Some(k)
  {
  }

  lemma MiddleNamesBack(k: Key)
    requires k.MinClusterSupport? || k.ClusterCosine? || k.MinConfidence? || k.MinPatternsPerCategory? || k.InjectionMaxPatterns?
      || k.InjectionMaxChars? || k.DistillUseLlm? || k.DistillLlmModel? || k.DistillLlmEndpoint?
    ensures KeyNamed(Name(k)) == Some(k)
  {
  }

  lemma LastNamesBack(k: Key)
    requires k.AllowRemoteEndpoints? || k.DistillLlmUnloadCmd? || k.DistillLlmLoadCmd? || k.RedactSecrets? || k.InjectionMap?
      || k.PatternTargets? || k.ExtraTranscriptDirs? || k.InjectionMinQuality?
    ensures KeyNamed(Name(k)) == Some(k)
  {
  }

  lemma NameBack(k: Key)
    ensures KeyNamed(Name(k)) == Some(k)
  {
    if Position(k) < 9 { FirstNamesBack(k); } else if Position(k) < 18 { MiddleNamesBack(k); } else { LastNamesBack(k); }
  }

  lemma NameInjective(a: Key, b: Key)
    requires Name(a) == Name(b)
    ensures a == b
  {
    NameBack(a);
    NameBack(b);
  }

  lemma NamesApart(a: Key, b: Key)
    requires a != b
    ensures Name(a) != Name(b)
  {
    if Name(a) == Name(b) { NameInjective(a, b); }
  }

  lemma MiningBare(k: Key)
    requires k.MiningEnabled? || k.InjectionEnabled? || k.MiningModels?
    ensures T.IsBare(Name(k))
  {
  }

  lemma TraceBare(k: Key)
    requires k.Categories? || k.MinTraceChars? || k.MaxTraceChars?
    ensures T.IsBare(Name(k))
  {
  }

  lemma RetentionBare(k: Key)
    requires k.ScanLookbackDays? || k.RetentionDays? || k.MaxTracesTotal?
    ensures T.IsBare(Name(k))
  {
  }

  lemma ClusterBare(k: Key)
    requires k.MinClusterSupport? || k.ClusterCosine? || k.MinConfidence?
    ensures T.IsBare(Name(k))
  {
  }

  lemma PatternBare(k: Key)
    requires k.MinPatternsPerCategory? || k.InjectionMaxPatterns? || k.InjectionMaxChars?
    ensures T.IsBare(Name(k))
  {
  }

  lemma DistillBare(k: Key)
    requires k.DistillUseLlm? || k.DistillLlmModel? || k.DistillLlmEndpoint?
    ensures T.IsBare(Name(k))
  {
  }

  lemma EndpointBare(k: Key)
    requires k.AllowRemoteEndpoints? || k.DistillLlmUnloadCmd?
    ensures T.IsBare(Name(k))
  {
  }

  lemma CommandBare(k: Key)
    requires k.DistillLlmLoadCmd? || k.RedactSecrets? || k.InjectionMap?
    ensures T.IsBare(Name(k))
  {
  }

  lemma TargetsBare(k: Key)
    requires k.PatternTargets?
    ensures T.IsBare(Name(k))
  {
  }

  lemma UnprintedBare(k: Key)
    requires k.ExtraTranscriptDirs? || k.InjectionMinQuality?
    ensures T.IsBare(Name(k))
  {
  }

  lemma NameBare(k: Key)
    ensures T.IsBare(Name(k))
  {
    if k.MiningEnabled? || k.InjectionEnabled? || k.MiningModels? { MiningBare(k); }
    else if k.Categories? || k.MinTraceChars? || k.MaxTraceChars? { TraceBare(k); }
    else if k.ScanLookbackDays? || k.RetentionDays? || k.MaxTracesTotal? { RetentionBare(k); }
    else if k.MinClusterSupport? || k.ClusterCosine? || k.MinConfidence? { ClusterBare(k); }
    else if k.MinPatternsPerCategory? || k.InjectionMaxPatterns? || k.InjectionMaxChars? { PatternBare(k); }
    else if k.DistillUseLlm? || k.DistillLlmModel? || k.DistillLlmEndpoint? { DistillBare(k); }
    else if k.AllowRemoteEndpoints? || k.DistillLlmUnloadCmd? { EndpointBare(k); }
    else if k.DistillLlmLoadCmd? || k.RedactSecrets? || k.InjectionMap? { CommandBare(k); }
    else if k.PatternTargets? { TargetsBare(k); }
    else if k.ExtraTranscriptDirs? || k.InjectionMinQuality? { UnprintedBare(k); }
  }

  /** Where a printed key stands; the rest come after. */
  function Position(k: Key): nat {
    match k
    case MiningEnabled => 0
    case InjectionEnabled => 1
    case MiningModels => 2
    case Categories => 3
    case MinTraceChars => 4
    case MaxTraceChars => 5
    case ScanLookbackDays => 6
    case RetentionDays => 7
    case MaxTracesTotal => 8
    case MinClusterSupport => 9
    case ClusterCosine => 10
    case MinConfidence => 11
    case MinPatternsPerCategory => 12
    case InjectionMaxPatterns => 13
    case InjectionMaxChars => 14
    case DistillUseLlm => 15
    case DistillLlmModel => 16
    case DistillLlmEndpoint => 17
    case AllowRemoteEndpoints => 18
    case DistillLlmUnloadCmd => 19
    case DistillLlmLoadCmd => 20
    case RedactSecrets => 21
    case InjectionMap => 22
    case PatternTargets => 23
    case ExtraTranscriptDirs => 24
    case InjectionMinQuality => 25
  }

  predicate Printed(k: Key) { Position(k) < 22 }

  lemma PositionOf(i: nat)
    requires i < |PRINTED|
    ensures Position(PRINTED[i]) == i
  {
  }

  lemma PrintedAt(k: Key)
    requires Printed(k)
    ensures Position(k) < |PRINTED| && PRINTED[Position(k)] == k
  {
  }
}
