/**
 Printing settings as command-line arguments (codex_runner/tui_state.py, to_cli_args) and the loop that
 reads arguments back (codex_runner/tui_app.py, _apply_initial_overrides).
 */
module Settings {
  import opened Wrappers
  import opened Collections
  import opened Text
  import opened Decimal

  /** The fields of the settings that name files and directories. */
  datatype Paths = Paths(
    repoRoot: string,
    auditPromptFile: string,
    auditSchemaFile: string,
    compilerPromptFile: string,
    campaignSetSchemaFile: string,
    taskResultSchemaFile: string
  )

  /** The fields whose names start with `pi_`. */
  datatype Pi = Pi(
    provider: string,
    model: string,
    modelAudit: string,
    modelCompiler: string,
    modelTask: string,
    thinking: string
  )

  /** The flat record of the source, with its paths and its `pi_` fields grouped. */
  datatype RunnerSettings = RunnerSettings(
    provider: string,
    paths: Paths,
    passes: int,
    baseRef: string,
    executeMode: string,
    branchPerCampaign: bool,
    allowDiscoveryFallback: bool,
    autoCommit: bool,
    verify: bool,
    debug: bool,
    pi: Pi
  )

  /** The flags the reading loop knows. */
  datatype Flag =
    | Provider | RepoRoot | AuditPromptFile | AuditSchemaFile | CompilerPromptFile | CampaignSetSchemaFile
    | TaskResultSchemaFile | Passes | BaseRef | Execute | DryRun | BranchPerCampaign | NoBranchPerCampaign
    | Verify | NoVerify | AllowDiscoveryFallback | Debug | PiProvider | PiModel | PiModelAudit
    | PiModelCompiler | PiModelTask | PiThinking

  function Name(flag: Flag): string {
    match flag
    case Provider => "--provider"
    case RepoRoot => "--repo-root"
    case AuditPromptFile => "--audit-prompt-file"
    case AuditSchemaFile => "--audit-schema-file"
    case CompilerPromptFile => "--compiler-prompt-file"
    case CampaignSetSchemaFile => "--campaign-set-schema-file"
    case TaskResultSchemaFile => "--task-result-schema-file"
    case Passes => "--passes"
    case BaseRef => "--base-ref"
    case Execute => "--execute"
    case DryRun => "--dry-run"
    case BranchPerCampaign => "--branch-per-campaign"
    case NoBranchPerCampaign => "--no-branch-per-campaign"
    case Verify => "--verify"
    case NoVerify => "--no-verify"
    case AllowDiscoveryFallback => "--allow-discovery-fallback"
    case Debug => "--debug"
    case PiProvider => "--pi-provider"
    case PiModel => "--pi-model"
    case PiModelAudit => "--pi-model-audit"
    case PiModelCompiler => "--pi-model-compiler"
    case PiModelTask => "--pi-model-task"
    case PiThinking => "--pi-thinking"
  }

  /** Printed, but not known to the reading loop. */
  const AUTO_COMMIT: string := "--auto-commit"

  predicate TakesValue(flag: Flag) {
    match flag
    case Execute => false
    case DryRun => false
    case BranchPerCampaign => false
    case NoBranchPerCampaign => false
    case Verify => false
    case NoVerify => false
    case AllowDiscoveryFallback => false
    case Debug => false
    case _ => true
  }

  function AtLeastOne(n: int): nat { if n < 1 then 1 else n }

  // ---------------------------------------------------------------- printing

  function Pair(flag: Flag, value: string): seq<string> { [Name(flag), value] }

  function PairIf(flag: Flag, value: string): seq<string> { if value == "" then [] else Pair(flag, value) }

  function One(flag: Flag): seq<string> { [Name(flag)] }

  function OneIf(given: bool, flag: Flag): seq<string> { if given then One(flag) else [] }

  function PathArgs(s: RunnerSettings, rest: seq<string>): seq<string> {
    Pair(Provider, s.provider) + (Pair(RepoRoot, s.paths.repoRoot) + (Pair(AuditPromptFile, s.paths.auditPromptFile)
    + (Pair(AuditSchemaFile, s.paths.auditSchemaFile) + (Pair(CompilerPromptFile, s.paths.compilerPromptFile)
    + (Pair(CampaignSetSchemaFile, s.paths.campaignSetSchemaFile)
    + (Pair(TaskResultSchemaFile, s.paths.taskResultSchemaFile) + rest))))))
  }

  function RunArgs(s: RunnerSettings, rest: seq<string>): seq<string> {
    Pair(Passes, ToDecimal(AtLeastOne(s.passes)))
    + (Pair(BaseRef, if s.baseRef == "" then "HEAD" else s.baseRef)
    + (One(if s.executeMode == "execute" then Execute else DryRun)
    + (One(if s.branchPerCampaign then BranchPerCampaign else NoBranchPerCampaign)
    + (OneIf(s.allowDiscoveryFallback, AllowDiscoveryFallback)
    + ([AUTO_COMMIT] + (One(if s.verify then Verify else NoVerify) + rest))))))
  }

  function PiArgs(s: RunnerSettings): seq<string> {
    PairIf(PiProvider, s.pi.provider) + (PairIf(PiModel, s.pi.model) + (PairIf(PiModelAudit, s.pi.modelAudit)
    + (PairIf(PiModelCompiler, s.pi.modelCompiler) + (PairIf(PiModelTask, s.pi.modelTask)
    + (PairIf(PiThinking, s.pi.thinking) + OneIf(s.debug, Debug))))))
  }

  function CliArgs(s: RunnerSettings): seq<string> { PathArgs(s, RunArgs(s, PiArgs(s))) }

  method ToCliArgs(s: RunnerSettings) returns (args: seq<string>)
    ensures args == CliArgs(s)
  {
    hide Pair, RunArgs, PiArgs;
    ghost var r7 := RunArgs(s, PiArgs(s));
    ghost var r6 := Pair(TaskResultSchemaFile, s.paths.taskResultSchemaFile) + r7;
    ghost var r5 := Pair(CampaignSetSchemaFile, s.paths.campaignSetSchemaFile) + r6;
    ghost var r4 := Pair(CompilerPromptFile, s.paths.compilerPromptFile) + r5;
    ghost var r3 := Pair(AuditSchemaFile, s.paths.auditSchemaFile) + r4;
    ghost var r2 := Pair(AuditPromptFile, s.paths.auditPromptFile) + r3;
    ghost var r1 := Pair(RepoRoot, s.paths.repoRoot) + r2;
    args := Pair(Provider, s.provider);
    assert args + r1 == CliArgs(s);
    Regroup(args, Pair(RepoRoot, s.paths.repoRoot), r2);
    args := args + Pair(RepoRoot, s.paths.repoRoot);
    Regroup(args, Pair(AuditPromptFile, s.paths.auditPromptFile), r3);
    args := args + Pair(AuditPromptFile, s.paths.auditPromptFile);
    Regroup(args, Pair(AuditSchemaFile, s.paths.auditSchemaFile), r4);
    args := args + Pair(AuditSchemaFile, s.paths.auditSchemaFile);
    Regroup(args, Pair(CompilerPromptFile, s.paths.compilerPromptFile), r5);
    args := args + Pair(CompilerPromptFile, s.paths.compilerPromptFile);
    Regroup(args, Pair(CampaignSetSchemaFile, s.paths.campaignSetSchemaFile), r6);
    args := args + Pair(CampaignSetSchemaFile, s.paths.campaignSetSchemaFile);
    Regroup(args, Pair(TaskResultSchemaFile, s.paths.taskResultSchemaFile), r7);
    args := args + Pair(TaskResultSchemaFile, s.paths.taskResultSchemaFile);
    var pi := PiArguments(s);
    var run := RunArguments(s, pi);
    args := args + run;
  }

  /** The run's arguments, followed by the rest. */
  method RunArguments(s: RunnerSettings, rest: seq<string>) returns (args: seq<string>)
    ensures args == RunArgs(s, rest)
  {
    hide Pair, One, AUTO_COMMIT, ToDecimal;
    var verify := One(if s.verify then Verify else NoVerify);
    ghost var r5 := [AUTO_COMMIT] + (verify + rest);
    ghost var r4 := OneIf(s.allowDiscoveryFallback, AllowDiscoveryFallback) + r5;
    var branch := One(if s.branchPerCampaign then BranchPerCampaign else NoBranchPerCampaign);
    ghost var r3 := branch + r4;
    var mode := One(if s.executeMode == "execute" then Execute else DryRun);
    ghost var r2 := mode + r3;
    var baseRef := Pair(BaseRef, if s.baseRef == "" then "HEAD" else s.baseRef);
    args := Pair(Passes, ToDecimal(AtLeastOne(s.passes)));
    assert args + (baseRef + r2) == RunArgs(s, rest);
    Regroup(args, baseRef, r2);
    args := args + baseRef;
    Regroup(args, mode, r3);
    args := args + mode;
    Regroup(args, branch, r4);
    args := args + branch;
    Regroup(args, OneIf(s.allowDiscoveryFallback, AllowDiscoveryFallback), r5);
    if s.allowDiscoveryFallback {
      args := args + One(AllowDiscoveryFallback);
    } else {
      assert args + [] == args;
    }
    Regroup(args, [AUTO_COMMIT], verify + rest);
    args := args + [AUTO_COMMIT];
    Regroup(args, verify, rest);
    args := args + verify + rest;
  }

  /** `if value: args.extend([name, value])`. */
  method ExtendIf(args: seq<string>, flag: Flag, value: string) returns (next: seq<string>)
    ensures next == args + PairIf(flag, value)
  {
    next := args;
    if value != "" {
      next := next + [Name(flag), value];
    }
  }

  method PiArguments(s: RunnerSettings) returns (args: seq<string>)
    ensures args == PiArgs(s)
  {
    hide PairIf, One;
    ghost var r6 := OneIf(s.debug, Debug);
    ghost var r5 := PairIf(PiThinking, s.pi.thinking) + r6;
    ghost var r4 := PairIf(PiModelTask, s.pi.modelTask) + r5;
    ghost var r3 := PairIf(PiModelCompiler, s.pi.modelCompiler) + r4;
    ghost var r2 := PairIf(PiModelAudit, s.pi.modelAudit) + r3;
    ghost var r1 := PairIf(PiModel, s.pi.model) + r2;
    args := ExtendIf([], PiProvider, s.pi.provider);
    assert args + r1 == PiArgs(s);
    Regroup(args, PairIf(PiModel, s.pi.model), r2);
    args := ExtendIf(args, PiModel, s.pi.model);
    Regroup(args, PairIf(PiModelAudit, s.pi.modelAudit), r3);
    args := ExtendIf(args, PiModelAudit, s.pi.modelAudit);
    Regroup(args, PairIf(PiModelCompiler, s.pi.modelCompiler), r4);
    args := ExtendIf(args, PiModelCompiler, s.pi.modelCompiler);
    Regroup(args, PairIf(PiModelTask, s.pi.modelTask), r5);
    args := ExtendIf(args, PiModelTask, s.pi.modelTask);
    Regroup(args, PairIf(PiThinking, s.pi.thinking), r6);
    args := ExtendIf(args, PiThinking, s.pi.thinking);
    if s.debug {
      args := args + One(Debug);
    } else {
      assert args + [] == args;
    }
  }

  // ---------------------------------------------------------------- reading

  const FLAGS: seq<Flag> := [
    Provider, RepoRoot, AuditPromptFile, AuditSchemaFile, CompilerPromptFile, CampaignSetSchemaFile,
    TaskResultSchemaFile, Passes, BaseRef, Execute, DryRun, BranchPerCampaign, NoBranchPerCampaign,
    Verify, NoVerify, AllowDiscoveryFallback, Debug, PiProvider, PiModel, PiModelAudit,
    PiModelCompiler, PiModelTask, PiThinking
  ]

  /** The first of the flags that has this name. */
  function FlagIn(part: string, flags: seq<Flag>): (r: Option<Flag>)
    ensures r.Some? ==> r.value in flags && Name(r.value) == part
  {
    if flags == [] then None
    else if part == Name(flags[0]) then Some(flags[0])
    else FlagIn(part, flags[1..])
  }

  function FlagOf(part: string): Option<Flag> { FlagIn(part, FLAGS) }

  function SetPath(p: Paths, flag: Flag, value: string): Paths {
    match flag
    case RepoRoot => p.(repoRoot := value)
    case AuditPromptFile => p.(auditPromptFile := value)
    case AuditSchemaFile => p.(auditSchemaFile := value)
    case CompilerPromptFile => p.(compilerPromptFile := value)
    case CampaignSetSchemaFile => p.(campaignSetSchemaFile := value)
    case TaskResultSchemaFile => p.(taskResultSchemaFile := value)
    case _ => p
  }

  function SetPi(p: Pi, flag: Flag, value: string): Pi {
    match flag
    case PiProvider => p.(provider := value)
    case PiModel => p.(model := value)
    case PiModelAudit => p.(modelAudit := value)
    case PiModelCompiler => p.(modelCompiler := value)
    case PiModelTask => p.(modelTask := value)
    case PiThinking => p.(thinking := value)
    case _ => p
  }

  /** A flag that takes a value, with the value after it. */
  function SetValue(s: RunnerSettings, flag: Flag, value: string): RunnerSettings {
    match flag
    case Provider => s.(provider := ToLower(Strip(value)))
    case Passes => (match ReadInt(value) case Some(n) => s.(passes := AtLeastOne(n)) case None => s)
    case BaseRef => s.(baseRef := value)
    case _ => s.(paths := SetPath(s.paths, flag, value), pi := SetPi(s.pi, flag, value))
  }

  function SetFlag(s: RunnerSettings, flag: Flag): RunnerSettings {
    match flag
    case Execute => s.(executeMode := "execute")
    case DryRun => s.(executeMode := "dry-run")
    case BranchPerCampaign => s.(branchPerCampaign := true)
    case NoBranchPerCampaign => s.(branchPerCampaign := false)
    case Verify => s.(verify := true)
    case NoVerify => s.(verify := false)
    case AllowDiscoveryFallback => s.(allowDiscoveryFallback := true)
    case Debug => s.(debug := true)
    case _ => s
  }

  /** The settings after reading the arguments from the front. */
  function Read(s: RunnerSettings, args: seq<string>): RunnerSettings
    decreases |args|
  {
    if args == [] then s
    else match FlagOf(args[0])
      case None => Read(s, args[1..])
      case Some(flag) =>
        if !TakesValue(flag) then Read(SetFlag(s, flag), args[1..])
        else if |args| > 1 && args[1] != "" then Read(SetValue(s, flag, args[1]), args[2..])
        else Read(s, args[1..])
  }

  /** Any provider but "pi" becomes "unsupported". */
  function Settled(s: RunnerSettings): RunnerSettings {
    if s.provider == "pi" then s else s.(provider := "unsupported")
  }

  method ApplyInitialOverrides(s: RunnerSettings, args: seq<string>) returns (updated: RunnerSettings)
    ensures updated == Settled(Read(s, args))
  {
    hide SetValue, SetFlag, FlagOf, TakesValue;
    updated := s;
    var i := 0;
    while i < |args|
      invariant 0 <= i <= |args|
      invariant Read(updated, args[i..]) == Read(s, args)
    {
      var rest := args[i..];
      assert rest[0] == args[i] && rest[1..] == args[i + 1..];
      match FlagOf(args[i])
      case None =>
        i := i + 1;
      case Some(flag) =>
        if !TakesValue(flag) {
          updated := SetFlag(updated, flag);
          i := i + 1;
        } else if i + 1 < |args| && args[i + 1] != "" {
          assert rest[1] == args[i + 1] && rest[2..] == args[i + 2..];
          updated := SetValue(updated, flag, args[i + 1]);
          i := i + 2;
        } else {
          assert |rest| > 1 ==> rest[1] == args[i + 1];
          i := i + 1;
        }
    }
    updated := Settled(updated);
  }
}
