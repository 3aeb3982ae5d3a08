/** What reading printed settings gives back, whatever the settings and the starting point. */
module SettingsLaws {
  import opened Wrappers
  import opened Text
  import opened Decimal
  import opened Settings

  // ---------------------------------------------------------------- names

  /** The length of a flag's name, its sixth character and, where it has one, its ninth: enough to tell it. */
  function Mark(flag: Flag): (nat, char, char) {
    match flag
    case Provider => (10, 'v', 'e')
    case RepoRoot => (11, 'o', 'o')
    case AuditPromptFile => (19, 'i', 'p')
    case AuditSchemaFile => (19, 'i', 's')
    case CompilerPromptFile => (22, 'p', 'e')
    case CampaignSetSchemaFile => (26, 'p', 'g')
    case TaskResultSchemaFile => (25, 'k', 'e')
    case Passes => (8, 's', ' ')
    case BaseRef => (10, 'e', 'e')
    case Execute => (9, 'c', 'e')
    case DryRun => (9, '-', 'n')
    case BranchPerCampaign => (21, 'n', '-')
    case NoBranchPerCampaign => (24, 'b', 'n')
    case Verify => (8, 'i', ' ')
    case NoVerify => (11, 'v', 'i')
    case AllowDiscoveryFallback => (26, 'o', 'd')
    case Debug => (7, 'u', ' ')
    case PiProvider => (13, 'p', 'v')
    case PiModel => (10, 'm', 'e')
    case PiModelAudit => (16, 'm', 'e')
    case PiModelCompiler => (19, 'm', 'e')
    case PiModelTask => (15, 'm', 'e')
    case PiThinking => (13, 't', 'n')
  }

  predicate Marked(s: string, mark: (nat, char, char)) {
    |s| == mark.0 && |s| > 5 && s[5] == mark.1 && (|s| > 8 ==> s[8] == mark.2)
  }

  predicate TakesPathOrPi(flag: Flag) { TakesValue(flag) && !flag.Passes? && !flag.BaseRef? && !flag.Provider? }

  lemma ValueNamesMarked(flag: Flag)
    requires TakesPathOrPi(flag)
    ensures Marked(Name(flag), Mark(flag))
  {
  }

  lemma OtherNamesMarked(flag: Flag)
    requires !TakesPathOrPi(flag)
    ensures Marked(Name(flag), Mark(flag))
  {
  }

  lemma NamesMarked(flag: Flag)
    ensures Marked(Name(flag), Mark(flag))
  {
    hide Name, Mark, Marked;
    if TakesPathOrPi(flag) {
      ValueNamesMarked(flag);
    } else {
      OtherNamesMarked(flag);
    }
  }

  lemma MarksDiffer(f: Flag, g: Flag)
    requires f != g
    ensures Mark(f).0 != Mark(g).0 || Mark(f).1 != Mark(g).1 || (Mark(f).0 > 8 && Mark(f).2 != Mark(g).2)
  {
  }

  lemma {:induction false} FlagInFinds(flag: Flag, flags: seq<Flag>)
    requires flag in flags
    ensures FlagIn(Name(flag), flags) == Some(flag)
  {
    hide Name, Mark;
    NamesMarked(flag);
    NamesMarked(flags[0]);
    if flag != flags[0] {
      MarksDiffer(flag, flags[0]);
      FlagInFinds(flag, flags[1..]);
    }
  }

  lemma AllListed(flag: Flag)
    ensures flag in FLAGS
  {
    match flag
    case Provider => assert FLAGS[0] == flag;
    case RepoRoot => assert FLAGS[1] == flag;
    case AuditPromptFile => assert FLAGS[2] == flag;
    case AuditSchemaFile => assert FLAGS[3] == flag;
    case CompilerPromptFile => assert FLAGS[4] == flag;
    case CampaignSetSchemaFile => assert FLAGS[5] == flag;
    case TaskResultSchemaFile => assert FLAGS[6] == flag;
    case Passes => assert FLAGS[7] == flag;
    case BaseRef => assert FLAGS[8] == flag;
    case Execute => assert FLAGS[9] == flag;
    case DryRun => assert FLAGS[10] == flag;
    case BranchPerCampaign => assert FLAGS[11] == flag;
    case NoBranchPerCampaign => assert FLAGS[12] == flag;
    case Verify => assert FLAGS[13] == flag;
    case NoVerify => assert FLAGS[14] == flag;
    case AllowDiscoveryFallback => assert FLAGS[15] == flag;
    case Debug => assert FLAGS[16] == flag;
    case PiProvider => assert FLAGS[17] == flag;
    case PiModel => assert FLAGS[18] == flag;
    case PiModelAudit => assert FLAGS[19] == flag;
    case PiModelCompiler => assert FLAGS[20] == flag;
    case PiModelTask => assert FLAGS[21] == flag;
    case PiThinking => assert FLAGS[22] == flag;
  }

  /** Every flag is recognised by its own name. */
  lemma FlagOfName(flag: Flag)
    ensures FlagOf(Name(flag)) == Some(flag)
  {
    hide FlagIn;
    AllListed(flag);
    FlagInFinds(flag, FLAGS);
  }

  lemma OthersUnknown()
    ensures FlagOf("") == None && FlagOf(AUTO_COMMIT) == None
  {
    hide FlagIn, Name;
    var empty, auto := FlagOf(""), FlagOf(AUTO_COMMIT);
    if empty.Some? {
      NamesMarked(empty.value);
    }
    if auto.Some? {
      NamesMarked(auto.value);
    }
  }

  // ---------------------------------------------------------------- one argument at a time

  /** A flag with a value, even one that looks like a flag; an empty value is passed over. */
  lemma ReadPair(b: RunnerSettings, flag: Flag, value: string, rest: seq<string>)
    requires TakesValue(flag)
    ensures Read(b, Pair(flag, value) + rest) == Read(if value == "" then b else SetValue(b, flag, value), rest)
  {
    hide Name, SetValue, SetFlag, FlagOf, TakesValue;
    FlagOfName(flag);
    OthersUnknown();
    var args := Pair(flag, value) + rest;
    assert args[1..] == [value] + rest && args[2..] == rest && args[1] == value;
    if value == "" {
      assert ([value] + rest)[1..] == rest;
    }
  }

  lemma ReadPairIf(b: RunnerSettings, flag: Flag, value: string, rest: seq<string>)
    requires TakesValue(flag)
    ensures Read(b, PairIf(flag, value) + rest) == Read(if value == "" then b else SetValue(b, flag, value), rest)
  {
    hide Read, SetValue, Pair;
    if value == "" {
      assert PairIf(flag, value) + rest == rest;
    } else {
      ReadPair(b, flag, value, rest);
    }
  }

  lemma ReadOne(b: RunnerSettings, flag: Flag, rest: seq<string>)
    requires !TakesValue(flag)
    ensures Read(b, One(flag) + rest) == Read(SetFlag(b, flag), rest)
  {
    hide Name, SetValue, SetFlag, FlagOf, TakesValue;
    FlagOfName(flag);
    assert (One(flag) + rest)[1..] == rest;
  }

  lemma ReadAutoCommit(b: RunnerSettings, rest: seq<string>)
    ensures Read(b, [AUTO_COMMIT] + rest) == Read(b, rest)
  {
    hide SetValue, SetFlag, FlagOf, TakesValue, AUTO_COMMIT;
    OthersUnknown();
    assert ([AUTO_COMMIT] + rest)[1..] == rest;
  }

  // ---------------------------------------------------------------- all of them

  function Or(value: string, fallback: string): string { if value == "" then fallback else value }

  /** What reading back the paths of `s` gives when it starts from those of `b`. */
  function OrPaths(s: Paths, b: Paths): Paths {
    Paths(Or(s.repoRoot, b.repoRoot), Or(s.auditPromptFile, b.auditPromptFile),
          Or(s.auditSchemaFile, b.auditSchemaFile), Or(s.compilerPromptFile, b.compilerPromptFile),
          Or(s.campaignSetSchemaFile, b.campaignSetSchemaFile), Or(s.taskResultSchemaFile, b.taskResultSchemaFile))
  }

  function OrPi(s: Pi, b: Pi): Pi {
    Pi(Or(s.provider, b.provider), Or(s.model, b.model), Or(s.modelAudit, b.modelAudit),
       Or(s.modelCompiler, b.modelCompiler), Or(s.modelTask, b.modelTask), Or(s.thinking, b.thinking))
  }

  function WithPaths(b: RunnerSettings, s: RunnerSettings): RunnerSettings {
    b.(provider := if s.provider == "" then b.provider else ToLower(Strip(s.provider)),
       paths := OrPaths(s.paths, b.paths))
  }

  function WithRun(b: RunnerSettings, s: RunnerSettings): RunnerSettings {
    b.(passes := AtLeastOne(s.passes),
       baseRef := Or(s.baseRef, "HEAD"),
       executeMode := if s.executeMode == "execute" then "execute" else "dry-run",
       branchPerCampaign := s.branchPerCampaign,
       allowDiscoveryFallback := s.allowDiscoveryFallback || b.allowDiscoveryFallback,
       verify := s.verify)
  }

  function WithPi(b: RunnerSettings, s: RunnerSettings): RunnerSettings {
    b.(pi := OrPi(s.pi, b.pi), debug := s.debug || b.debug)
  }

  predicate IsPath(flag: Flag) {
    || flag.RepoRoot? || flag.AuditPromptFile? || flag.AuditSchemaFile? || flag.CompilerPromptFile?
    || flag.CampaignSetSchemaFile? || flag.TaskResultSchemaFile?
  }

  predicate IsPi(flag: Flag) {
    || flag.PiProvider? || flag.PiModel? || flag.PiModelAudit? || flag.PiModelCompiler? || flag.PiModelTask?
    || flag.PiThinking?
  }

  function GivenPath(p: Paths, flag: Flag, value: string): Paths { if value == "" then p else SetPath(p, flag, value) }

  function GivenPi(p: Pi, flag: Flag, value: string): Pi { if value == "" then p else SetPi(p, flag, value) }

  lemma ReadPath(b: RunnerSettings, flag: Flag, value: string, rest: seq<string>)
    requires IsPath(flag)
    ensures Read(b, Pair(flag, value) + rest) == Read(b.(paths := GivenPath(b.paths, flag, value)), rest)
  {
    hide Read, Pair, SetPath;
    ReadPair(b, flag, value, rest);
    assert value == "" ==> b.(paths := b.paths) == b;
  }

  lemma ReadPiPair(b: RunnerSettings, flag: Flag, value: string, rest: seq<string>)
    requires IsPi(flag)
    ensures Read(b, PairIf(flag, value) + rest) == Read(b.(pi := GivenPi(b.pi, flag, value)), rest)
  {
    hide Read, PairIf, SetPi;
    ReadPairIf(b, flag, value, rest);
    assert value == "" ==> b.(pi := b.pi) == b;
  }

  lemma PathsGiven(s: Paths, b: Paths)
    ensures OrPaths(s, b) ==
      GivenPath(GivenPath(GivenPath(GivenPath(GivenPath(GivenPath(b, RepoRoot, s.repoRoot),
        AuditPromptFile, s.auditPromptFile), AuditSchemaFile, s.auditSchemaFile),
        CompilerPromptFile, s.compilerPromptFile), CampaignSetSchemaFile, s.campaignSetSchemaFile),
        TaskResultSchemaFile, s.taskResultSchemaFile)
  {
  }

  lemma PiStep(p: Pi, v: string)
    ensures GivenPi(p, PiProvider, v) == p.(provider := Or(v, p.provider))
    ensures GivenPi(p, PiModel, v) == p.(model := Or(v, p.model))
    ensures GivenPi(p, PiModelAudit, v) == p.(modelAudit := Or(v, p.modelAudit))
  {
  }

  lemma PiStepMore(p: Pi, v: string)
    ensures GivenPi(p, PiModelCompiler, v) == p.(modelCompiler := Or(v, p.modelCompiler))
    ensures GivenPi(p, PiModelTask, v) == p.(modelTask := Or(v, p.modelTask))
    ensures GivenPi(p, PiThinking, v) == p.(thinking := Or(v, p.thinking))
  {
  }

  lemma PiGiven(s: Pi, b: Pi)
    ensures OrPi(s, b) ==
      GivenPi(GivenPi(GivenPi(GivenPi(GivenPi(GivenPi(b, PiProvider, s.provider), PiModel, s.model),
        PiModelAudit, s.modelAudit), PiModelCompiler, s.modelCompiler), PiModelTask, s.modelTask),
        PiThinking, s.thinking)
  {
    hide GivenPi, Or;
    PiStep(b, s.provider);
    var p1 := GivenPi(b, PiProvider, s.provider);
    PiStep(p1, s.model);
    var p2 := GivenPi(p1, PiModel, s.model);
    PiStep(p2, s.modelAudit);
    var p3 := GivenPi(p2, PiModelAudit, s.modelAudit);
    PiStepMore(p3, s.modelCompiler);
    var p4 := GivenPi(p3, PiModelCompiler, s.modelCompiler);
    PiStepMore(p4, s.modelTask);
    PiStepMore(GivenPi(p4, PiModelTask, s.modelTask), s.thinking);
  }

  lemma ReadProvider(b: RunnerSettings, value: string, rest: seq<string>)
    ensures Read(b, Pair(Provider, value) + rest)
            == Read(b.(provider := if value == "" then b.provider else ToLower(Strip(value))), rest)
  {
    hide Read, Pair, Strip, ToLower;
    ReadPair(b, Provider, value, rest);
    assert b.(provider := b.provider) == b;
  }

  lemma ReadPaths(b: RunnerSettings, s: RunnerSettings, rest: seq<string>)
    ensures Read(b, PathArgs(s, rest)) == Read(WithPaths(b, s), rest)
  {
    hide Read, Pair, GivenPath, OrPaths, Strip, ToLower, SetValue;
    var p := s.paths;
    var r6 := Pair(TaskResultSchemaFile, p.taskResultSchemaFile) + rest;
    var r5 := Pair(CampaignSetSchemaFile, p.campaignSetSchemaFile) + r6;
    var r4 := Pair(CompilerPromptFile, p.compilerPromptFile) + r5;
    var r3 := Pair(AuditSchemaFile, p.auditSchemaFile) + r4;
    var r2 := Pair(AuditPromptFile, p.auditPromptFile) + r3;
    var r1 := Pair(RepoRoot, p.repoRoot) + r2;
    ReadProvider(b, s.provider, r1);
    var b1 := b.(provider := if s.provider == "" then b.provider else ToLower(Strip(s.provider)));
    ReadPath(b1, RepoRoot, p.repoRoot, r2);
    var b2 := b1.(paths := GivenPath(b1.paths, RepoRoot, p.repoRoot));
    ReadPath(b2, AuditPromptFile, p.auditPromptFile, r3);
    var b3 := b2.(paths := GivenPath(b2.paths, AuditPromptFile, p.auditPromptFile));
    ReadPath(b3, AuditSchemaFile, p.auditSchemaFile, r4);
    var b4 := b3.(paths := GivenPath(b3.paths, AuditSchemaFile, p.auditSchemaFile));
    ReadPath(b4, CompilerPromptFile, p.compilerPromptFile, r5);
    var b5 := b4.(paths := GivenPath(b4.paths, CompilerPromptFile, p.compilerPromptFile));
    ReadPath(b5, CampaignSetSchemaFile, p.campaignSetSchemaFile, r6);
    var b6 := b5.(paths := GivenPath(b5.paths, CampaignSetSchemaFile, p.campaignSetSchemaFile));
    ReadPath(b6, TaskResultSchemaFile, p.taskResultSchemaFile, rest);
    PathsGiven(p, b.paths);
  }

  lemma ReadNumbers(b: RunnerSettings, s: RunnerSettings, rest: seq<string>)
    ensures var baseRef := if s.baseRef == "" then "HEAD" else s.baseRef;
            Read(b, Pair(Passes, ToDecimal(AtLeastOne(s.passes))) + (Pair(BaseRef, baseRef) + rest))
            == Read(b.(passes := AtLeastOne(s.passes), baseRef := Or(s.baseRef, "HEAD")), rest)
  {
    hide Read, Pair, ToDecimal, ReadInt;
    var n := AtLeastOne(s.passes);
    var baseRef := if s.baseRef == "" then "HEAD" else s.baseRef;
    DecimalRoundTrip(n);
    ReadPair(b, Passes, ToDecimal(n), Pair(BaseRef, baseRef) + rest);
    ReadPair(b.(passes := n), BaseRef, baseRef, rest);
  }

  lemma ModesSet(b: RunnerSettings, s: RunnerSettings)
    ensures SetFlag(b, if s.executeMode == "execute" then Execute else DryRun)
            == b.(executeMode := if s.executeMode == "execute" then "execute" else "dry-run")
    ensures SetFlag(b, if s.branchPerCampaign then BranchPerCampaign else NoBranchPerCampaign)
            == b.(branchPerCampaign := s.branchPerCampaign)
    ensures SetFlag(b, if s.verify then Verify else NoVerify) == b.(verify := s.verify)
    ensures (if s.allowDiscoveryFallback then SetFlag(b, AllowDiscoveryFallback) else b)
            == b.(allowDiscoveryFallback := s.allowDiscoveryFallback || b.allowDiscoveryFallback)
  {
  }

  lemma ReadModes(b: RunnerSettings, s: RunnerSettings, rest: seq<string>)
    ensures Read(b, One(if s.executeMode == "execute" then Execute else DryRun)
                    + (One(if s.branchPerCampaign then BranchPerCampaign else NoBranchPerCampaign) + rest))
            == Read(b.(executeMode := if s.executeMode == "execute" then "execute" else "dry-run",
                       branchPerCampaign := s.branchPerCampaign), rest)
  {
    hide Read, One, SetFlag;
    var mode := if s.executeMode == "execute" then Execute else DryRun;
    var branch := if s.branchPerCampaign then BranchPerCampaign else NoBranchPerCampaign;
    ModesSet(b, s);
    ReadOne(b, mode, One(branch) + rest);
    ModesSet(SetFlag(b, mode), s);
    ReadOne(SetFlag(b, mode), branch, rest);
  }

  lemma ReadChecks(b: RunnerSettings, s: RunnerSettings, rest: seq<string>)
    ensures Read(b, OneIf(s.allowDiscoveryFallback, AllowDiscoveryFallback)
                    + ([AUTO_COMMIT] + (One(if s.verify then Verify else NoVerify) + rest)))
            == Read(b.(allowDiscoveryFallback := s.allowDiscoveryFallback || b.allowDiscoveryFallback,
                       verify := s.verify), rest)
  {
    hide Read, One, OneIf, SetFlag, AUTO_COMMIT;
    var verify := if s.verify then Verify else NoVerify;
    ReadOneIf(b, s.allowDiscoveryFallback, AllowDiscoveryFallback, [AUTO_COMMIT] + (One(verify) + rest));
    ModesSet(b, s);
    var next := b.(allowDiscoveryFallback := s.allowDiscoveryFallback || b.allowDiscoveryFallback);
    ReadAutoCommit(next, One(verify) + rest);
    ReadOne(next, verify, rest);
    ModesSet(next, s);
  }

  lemma ReadRun(b: RunnerSettings, s: RunnerSettings, rest: seq<string>)
    ensures Read(b, RunArgs(s, rest)) == Read(WithRun(b, s), rest)
  {
    hide Read, Pair, One, OneIf, ToDecimal, AUTO_COMMIT, Or;
    var mode := if s.executeMode == "execute" then Execute else DryRun;
    var branch := if s.branchPerCampaign then BranchPerCampaign else NoBranchPerCampaign;
    var last := OneIf(s.allowDiscoveryFallback, AllowDiscoveryFallback)
                + ([AUTO_COMMIT] + (One(if s.verify then Verify else NoVerify) + rest));
    ReadNumbers(b, s, One(mode) + (One(branch) + last));
    var b1 := b.(passes := AtLeastOne(s.passes), baseRef := Or(s.baseRef, "HEAD"));
    ReadModes(b1, s, last);
    var b2 := b1.(executeMode := if s.executeMode == "execute" then "execute" else "dry-run",
                  branchPerCampaign := s.branchPerCampaign);
    ReadChecks(b2, s, rest);
  }

  lemma ReadOneIf(b: RunnerSettings, given: bool, flag: Flag, rest: seq<string>)
    requires !TakesValue(flag)
    ensures Read(b, OneIf(given, flag) + rest) == Read(if given then SetFlag(b, flag) else b, rest)
  {
    hide Read, SetFlag, One, TakesValue;
    if given {
      ReadOne(b, flag, rest);
    } else {
      assert [] + rest == rest;
    }
  }

  lemma ReadPi(b: RunnerSettings, s: RunnerSettings)
    ensures Read(b, PiArgs(s)) == WithPi(b, s)
  {
    hide Read, PairIf, OneIf, GivenPi, OrPi;
    var p := s.pi;
    var r6 := OneIf(s.debug, Debug);
    var r5 := PairIf(PiThinking, p.thinking) + r6;
    var r4 := PairIf(PiModelTask, p.modelTask) + r5;
    var r3 := PairIf(PiModelCompiler, p.modelCompiler) + r4;
    var r2 := PairIf(PiModelAudit, p.modelAudit) + r3;
    var r1 := PairIf(PiModel, p.model) + r2;
    ReadPiPair(b, PiProvider, p.provider, r1);
    var b1 := b.(pi := GivenPi(b.pi, PiProvider, p.provider));
    ReadPiPair(b1, PiModel, p.model, r2);
    var b2 := b1.(pi := GivenPi(b1.pi, PiModel, p.model));
    ReadPiPair(b2, PiModelAudit, p.modelAudit, r3);
    var b3 := b2.(pi := GivenPi(b2.pi, PiModelAudit, p.modelAudit));
    ReadPiPair(b3, PiModelCompiler, p.modelCompiler, r4);
    var b4 := b3.(pi := GivenPi(b3.pi, PiModelCompiler, p.modelCompiler));
    ReadPiPair(b4, PiModelTask, p.modelTask, r5);
    var b5 := b4.(pi := GivenPi(b4.pi, PiModelTask, p.modelTask));
    ReadPiPair(b5, PiThinking, p.thinking, r6);
    var b6 := b5.(pi := GivenPi(b5.pi, PiThinking, p.thinking));
    PiGiven(p, b.pi);
    ReadDebug(b6, s.debug);
  }

  lemma ReadDebug(b: RunnerSettings, debug: bool)
    ensures Read(b, OneIf(debug, Debug)) == b.(debug := debug || b.debug)
  {
    hide OneIf, Name, FlagIn;
    ReadOneIf(b, debug, Debug, []);
    assert OneIf(debug, Debug) + [] == OneIf(debug, Debug);
  }

  /** Whatever the values, the loop lands on the printed flags: reading gives exactly these settings. */
  lemma ReadBack(b: RunnerSettings, s: RunnerSettings)
    ensures Read(b, CliArgs(s)) == WithPi(WithRun(WithPaths(b, s), s), s)
  {
    hide Read, PathArgs, RunArgs, PiArgs, WithPi, WithRun, WithPaths;
    ReadPaths(b, s, RunArgs(s, PiArgs(s)));
    ReadRun(WithPaths(b, s), s, PiArgs(s));
    ReadPi(WithRun(WithPaths(b, s), s), s);
  }

  predicate Kept(value: string, fallback: string) { value != "" || fallback == "" }

  predicate KeptPaths(s: Paths, b: Paths) {
    && Kept(s.repoRoot, b.repoRoot) && Kept(s.auditPromptFile, b.auditPromptFile)
    && Kept(s.auditSchemaFile, b.auditSchemaFile) && Kept(s.compilerPromptFile, b.compilerPromptFile)
    && Kept(s.campaignSetSchemaFile, b.campaignSetSchemaFile) && Kept(s.taskResultSchemaFile, b.taskResultSchemaFile)
  }

  predicate KeptPi(s: Pi, b: Pi) {
    && Kept(s.provider, b.provider) && Kept(s.model, b.model) && Kept(s.modelAudit, b.modelAudit)
    && Kept(s.modelCompiler, b.modelCompiler) && Kept(s.modelTask, b.modelTask) && Kept(s.thinking, b.thinking)
  }

  /** What the settings must be like for the round trip, given the settings it starts from. */
  predicate Printable(s: RunnerSettings, b: RunnerSettings) {
    && (s.provider == "pi" || s.provider == "unsupported")
    && s.passes >= 1 && s.baseRef != "" && (s.executeMode == "execute" || s.executeMode == "dry-run")
    && s.autoCommit == b.autoCommit
    && (s.allowDiscoveryFallback || !b.allowDiscoveryFallback) && (s.debug || !b.debug)
    && KeptPaths(s.paths, b.paths) && KeptPi(s.pi, b.pi)
  }

  /** Printing and reading back gives the settings again exactly when they are printable. */
  lemma RoundTripIff(b: RunnerSettings, s: RunnerSettings)
    ensures Settled(Read(b, CliArgs(s))) == s <==> Printable(s, b)
  {
    hide Read, CliArgs, Strip, ToLower;
    ReadBack(b, s);
    ProviderBack(s.provider);
  }

  lemma ProviderBack(provider: string)
    ensures provider == "pi" ==> ToLower(Strip(provider)) == "pi"
    ensures provider == "unsupported" ==> ToLower(Strip(provider)) != "pi"
  {
    if provider == "pi" {
      StripTrimmed(provider);
      assert ToLower("pi") == ['p'] + ToLower("i") == "pi";
    } else if provider == "unsupported" {
      StripTrimmed(provider);
      assert |ToLower(Strip(provider))| == 11;
    }
  }

  /** The settings a run starts from. */
  function Defaults(root: string, scripts: string, verify: bool): RunnerSettings {
    var paths := Paths(root, scripts + "/prompts/mega_audit.md", scripts + "/schemas/mega_audit_output.schema.json",
                       scripts + "/prompts/audit_report_to_campaign_runner.md",
                       scripts + "/schemas/campaign_set.schema.json",
                       scripts + "/schemas/task_result.schema.json");
    RunnerSettings("pi", paths, 1, "HEAD", "dry-run", true, false, true, verify, false, Pi("", "", "", "", "", ""))
  }

  /** From the defaults: provider "pi", a valid mode, automatic commits, and nothing empty that must not be. */
  lemma RoundTripFromDefaults(root: string, scripts: string, verify: bool, s: RunnerSettings)
    requires s.provider == "pi" && s.passes >= 1 && s.baseRef != "" && s.autoCommit
    requires s.executeMode == "execute" || s.executeMode == "dry-run"
    requires s.paths.repoRoot != "" && s.paths.auditPromptFile != "" && s.paths.auditSchemaFile != ""
    requires s.paths.compilerPromptFile != "" && s.paths.campaignSetSchemaFile != ""
             && s.paths.taskResultSchemaFile != ""
    ensures Settled(Read(Defaults(root, scripts, verify), CliArgs(s))) == s
  {
    hide Read, CliArgs;
    RoundTripIff(Defaults(root, scripts, verify), s);
  }

  // ---------------------------------------------------------------- whatever the arguments

  /** What every settings record the interface works with satisfies. */
  predicate Sane(s: RunnerSettings) { s.passes >= 1 && (s.executeMode == "execute" || s.executeMode == "dry-run") }

  lemma SetKeepsSane(s: RunnerSettings, flag: Flag, value: string)
    requires Sane(s)
    ensures Sane(SetFlag(s, flag)) && SetFlag(s, flag).autoCommit == s.autoCommit
    ensures Sane(SetValue(s, flag, value)) && SetValue(s, flag, value).autoCommit == s.autoCommit
  {
    hide ReadInt, ToLower, Strip;
  }

  lemma {:induction false} ReadSane(b: RunnerSettings, args: seq<string>)
    requires Sane(b)
    ensures Sane(Read(b, args)) && Read(b, args).autoCommit == b.autoCommit
    decreases |args|
  {
    hide FlagOf, SetValue, SetFlag, TakesValue;
    if args != [] {
      var flag := FlagOf(args[0]);
      if flag.None? {
        ReadSane(b, args[1..]);
      } else if !TakesValue(flag.value) {
        SetKeepsSane(b, flag.value, "");
        ReadSane(SetFlag(b, flag.value), args[1..]);
      } else if |args| > 1 && args[1] != "" {
        SetKeepsSane(b, flag.value, args[1]);
        ReadSane(SetValue(b, flag.value, args[1]), args[2..]);
      } else {
        ReadSane(b, args[1..]);
      }
    }
  }

  /**
   Whatever arguments are read, numbers that make no sense included: at least one pass, one of the two modes,
   one of the two providers, and automatic commits as they were.
   */
  lemma ReadKeepsSane(b: RunnerSettings, args: seq<string>)
    requires Sane(b)
    ensures var r := Settled(Read(b, args));
            && r.passes >= 1 && (r.executeMode == "execute" || r.executeMode == "dry-run")
            && (r.provider == "pi" || r.provider == "unsupported") && r.autoCommit == b.autoCommit
  {
    hide Read;
    ReadSane(b, args);
  }

  /** `str(n)`. */
  function Signed(n: int): string { if n < 0 then "-" + ToDecimal(-n) else ToDecimal(n) }

  lemma SignedReads(n: int)
    ensures ReadInt(Signed(n)) == Some(n)
  {
    hide ToDecimal, ReadDigits;
    if n < 0 {
      var digits := ToDecimal(-n);
      ToDecimalDigits(-n);
      assert digits[|digits| - 1] in digits;
      DigitsRoundTrip(-n);
      MinusReads(digits);
    } else {
      DecimalRoundTrip(n);
    }
  }

  lemma MinusReads(digits: string)
    requires digits != "" && IsDigit(digits[|digits| - 1]) && ReadDigits(digits).Some?
    ensures var n: int := ReadDigits(digits).value; ReadInt("-" + digits) == Some(-n)
  {
    hide ReadDigits, Strip;
    var text := "-" + digits;
    StripTrimmed(text);
    assert text[1..] == digits;
  }

  /** The last number of passes given counts, but never fewer than one. */
  lemma LastPassesCount(b: RunnerSettings, first: int, last: int)
    ensures Read(b, ["--passes", Signed(first), "--passes", Signed(last)]) == b.(passes := if last < 1 then 1 else last)
  {
    hide Read, Signed, ReadInt;
    SignedReads(first);
    SignedReads(last);
    assert Signed(first) != "" && Signed(last) != "" by { SignedText(first); SignedText(last); }
    var second: seq<string> := ["--passes", Signed(last)];
    ReadPair(b, Passes, Signed(first), second);
    ReadPair(b.(passes := AtLeastOne(first)), Passes, Signed(last), []);
    assert Pair(Passes, Signed(last)) + [] == second;
    assert Pair(Passes, Signed(first)) + second == ["--passes", Signed(first), "--passes", Signed(last)];
    ReadNothing(b.(passes := AtLeastOne(last)));
  }

  lemma SignedText(n: int)
    ensures Signed(n) != ""
  {
  }

  lemma ReadNothing(b: RunnerSettings)
    ensures Read(b, []) == b
  {
  }

  // ---------------------------------------------------------------- the printed arguments in full

  /** The six paths, named. */
  function NamedPaths(s: RunnerSettings): seq<string> {
    ["--provider", s.provider, "--repo-root", s.paths.repoRoot,
     "--audit-prompt-file", s.paths.auditPromptFile, "--audit-schema-file", s.paths.auditSchemaFile,
     "--compiler-prompt-file", s.paths.compilerPromptFile,
     "--campaign-set-schema-file", s.paths.campaignSetSchemaFile,
     "--task-result-schema-file", s.paths.taskResultSchemaFile]
  }

  lemma PathsPrinted(s: RunnerSettings, rest: seq<string>)
    ensures PathArgs(s, rest) == NamedPaths(s) + rest
  {
  }

  lemma RunPrinted(s: RunnerSettings, rest: seq<string>)
    requires s.passes >= 1 && s.baseRef != "" && s.executeMode == "execute" && s.branchPerCampaign
    requires s.allowDiscoveryFallback && s.verify
    ensures RunArgs(s, rest) ==
              ["--passes", ToDecimal(s.passes), "--base-ref", s.baseRef, "--execute", "--branch-per-campaign",
               "--allow-discovery-fallback", "--auto-commit", "--verify"] + rest
  {
    hide ToDecimal;
  }

  lemma RunPrintedBare(s: RunnerSettings, rest: seq<string>)
    requires s.passes < 1 && s.baseRef == "" && s.executeMode != "execute" && !s.branchPerCampaign
    requires !s.allowDiscoveryFallback && !s.verify
    ensures RunArgs(s, rest) ==
              ["--passes", "1", "--base-ref", "HEAD", "--dry-run", "--no-branch-per-campaign", "--auto-commit",
               "--no-verify"] + rest
  {
    assert ToDecimal(1) == "1";
    hide ToDecimal;
  }

  lemma PiPrinted(s: RunnerSettings)
    requires s.debug && s.pi.provider != "" && s.pi.model != "" && s.pi.modelAudit != "" && s.pi.modelCompiler != ""
    requires s.pi.modelTask != "" && s.pi.thinking != ""
    ensures PiArgs(s) == ["--pi-provider", s.pi.provider, "--pi-model", s.pi.model, "--pi-model-audit", s.pi.modelAudit,
                          "--pi-model-compiler", s.pi.modelCompiler, "--pi-model-task", s.pi.modelTask,
                          "--pi-thinking", s.pi.thinking, "--debug"]
  {
  }

  /** All that can be printed. */
  lemma PrintedInFull(s: RunnerSettings)
    requires s.passes >= 1 && s.baseRef != "" && s.executeMode == "execute" && s.branchPerCampaign
    requires s.allowDiscoveryFallback && s.verify && s.debug
    requires s.pi.provider != "" && s.pi.model != "" && s.pi.modelAudit != "" && s.pi.modelCompiler != ""
    requires s.pi.modelTask != "" && s.pi.thinking != ""
    ensures CliArgs(s) == NamedPaths(s)
            + (["--passes", ToDecimal(s.passes), "--base-ref", s.baseRef, "--execute", "--branch-per-campaign",
                "--allow-discovery-fallback", "--auto-commit", "--verify"]
               + ["--pi-provider", s.pi.provider, "--pi-model", s.pi.model, "--pi-model-audit", s.pi.modelAudit,
                  "--pi-model-compiler", s.pi.modelCompiler, "--pi-model-task", s.pi.modelTask,
                  "--pi-thinking", s.pi.thinking, "--debug"])
  {
    hide ToDecimal, PathArgs, RunArgs, PiArgs, NamedPaths;
    PiPrinted(s);
    RunPrinted(s, PiArgs(s));
    PathsPrinted(s, RunArgs(s, PiArgs(s)));
  }

  /** The least that can be printed. */
  lemma PrintedBare(s: RunnerSettings)
    requires s.passes < 1 && s.baseRef == "" && s.executeMode != "execute" && !s.branchPerCampaign
    requires !s.allowDiscoveryFallback && !s.verify && !s.debug && s.pi == Pi("", "", "", "", "", "")
    ensures CliArgs(s) == NamedPaths(s)
            + ["--passes", "1", "--base-ref", "HEAD", "--dry-run", "--no-branch-per-campaign", "--auto-commit",
               "--no-verify"]
  {
    assert PiArgs(s) == [];
    hide PathArgs, RunArgs, PiArgs, NamedPaths;
    RunPrintedBare(s, []);
    PathsPrinted(s, RunArgs(s, []));
  }
}
