/** Task records: validation, normal form and content hash (codex_runner/runner.py). */
module Tasks {
  import opened Wrappers
  import opened Text
  import opened Json
  import opened Paths

  datatype Risk = High | Med | Low

  datatype Lane = Standard | ArchitectureImpact | Discovery | DocsOnly | ProofRunbook

  /** What a task says, after normalisation; exactly the fields `task_hash` covers. */
  datatype Content = Content(
    id: string,
    slug: string,
    area: string,
    risk: Risk,
    files: seq<string>,
    tests: seq<string>,
    commitMessage: string,
    artifactMarkdown: string,
    activationPrompt: string,
    dependencies: seq<string>,
    lane: Option<Lane>)

  /**
   A content hash. SHA-256 over canonical JSON is modelled as a free constructor: two digests are
   equal only when the hashed values are equal.
   */
  datatype Digest = TaskDigest(content: Content) | DiscoveryDigest(runId: string)

  /** A task entry of a proposal: the fields the runner reads, `None` where the key is absent. */
  datatype RawTask =
    | NotAnObject
    | RawTask(
        id: Option<Json>,
        slug: Option<Json>,
        area: Option<Json>,
        risk: Option<Json>,
        files: Option<Json>,
        tests: Option<Json>,
        commitMessage: Option<Json>,
        artifactMarkdown: Option<Json>,
        activationPrompt: Option<Json>,
        dependencies: Option<Json>,
        lane: Option<Json>)

  datatype TaskError =
    | MissingFields
    | InvalidId
    | InvalidSlug
    | InvalidLane
    | InvalidRisk
    | FilesNotList
    | InvalidFile(error: PathError)
    | TestsNotList
    | DependenciesNotList
    | EmptyCommitMessage

  function LaneName(lane: Lane): string {
    match lane
    case Standard => "standard"
    case ArchitectureImpact => "architecture_impact"
    case Discovery => "discovery"
    case DocsOnly => "docs_only"
    case ProofRunbook => "proof_runbook"
  }

  function RiskName(risk: Risk): string {
    match risk
    case High => "HIGH"
    case Med => "MED"
    case Low => "LOW"
  }

  function ParseLane(text: string): Option<Lane> {
    if text == "standard" then Some(Standard)
    else if text == "architecture_impact" then Some(ArchitectureImpact)
    else if text == "discovery" then Some(Discovery)
    else if text == "docs_only" then Some(DocsOnly)
    else if text == "proof_runbook" then Some(ProofRunbook)
    else None
  }

  function ParseRisk(text: string): Option<Risk> {
    if text == "HIGH" then Some(High)
    else if text == "MED" then Some(Med)
    else if text == "LOW" then Some(Low)
    else None
  }

  predicate IsTaskId(s: string) {
    s != "" && forall c :: c in s ==> IsAsciiLetter(c) || IsDigit(c) || c in {'_', ':', '-'}
  }

  predicate IsSlug(s: string) {
    s != "" && forall c :: c in s ==> IsLower(c) || IsDigit(c) || c == '_'
  }

  function Texts(items: seq<Json>): (r: seq<string>)
    ensures |r| == |items|
    ensures forall i :: 0 <= i < |items| ==> r[i] == Str(items[i])
  {
    if items == [] then [] else [Str(items[0])] + Texts(items[1..])
  }

  function NormalizePaths(items: seq<Json>): Result<seq<string>, PathError> {
    if items == [] then Ok([])
    else match NormalizePath(Str(items[0]))
      case Err(e) => Err(e)
      case Ok(path) =>
        match NormalizePaths(items[1..])
        case Err(e) => Err(e)
        case Ok(rest) => Ok([path] + rest)
  }

  predicate HasRequired(raw: RawTask)
    requires raw.RawTask?
  {
    && raw.id.Some? && raw.slug.Some? && raw.area.Some? && raw.risk.Some? && raw.files.Some?
    && raw.tests.Some? && raw.commitMessage.Some? && raw.artifactMarkdown.Some?
    && raw.activationPrompt.Some? && raw.dependencies.Some?
  }

  /** `str(task.get("task_lane") or "").strip()`. */
  function LaneText(lane: Option<Json>): string {
    if lane.None? then "" else Strip(StrOrEmpty(lane.value))
  }

  /** `normalize_task`, without the `campaign_slug` it stores beside the content. */
  function NormalizeTask(raw: RawTask): Result<Content, TaskError>
    requires raw.RawTask?
  {
    if !HasRequired(raw) then Err(MissingFields)
    else if !IsTaskId(Strip(Str(raw.id.value))) then Err(InvalidId)
    else if !IsSlug(Strip(Str(raw.slug.value))) then Err(InvalidSlug)
    else
      var lane := LaneText(raw.lane);
      var risk := ParseRisk(ToUpper(Strip(Str(raw.risk.value))));
      if lane != "" && ParseLane(lane).None? then Err(InvalidLane)
      else if risk.None? then Err(InvalidRisk)
      else NormalizeLists(raw, ParseLane(lane), risk.value)
  }

  function NormalizeLists(raw: RawTask, lane: Option<Lane>, risk: Risk): Result<Content, TaskError>
    requires raw.RawTask? && HasRequired(raw)
  {
    var files := raw.files.value;
    var tests := raw.tests.value;
    var dependencies := raw.dependencies.value;
    if !files.Array? then Err(FilesNotList)
    else match NormalizePaths(files.items)
      case Err(e) => Err(InvalidFile(e))
      case Ok(paths) =>
        if !tests.Array? then Err(TestsNotList)
        else if !dependencies.Array? then Err(DependenciesNotList)
        else
          var message := Strip(Str(raw.commitMessage.value));
          if message == "" then Err(EmptyCommitMessage)
          else Ok(Content(
                    Strip(Str(raw.id.value)), Strip(Str(raw.slug.value)), Strip(Str(raw.area.value)), risk,
                    paths, Texts(tests.items), message,
                    Str(raw.artifactMarkdown.value), Str(raw.activationPrompt.value),
                    Texts(dependencies.items), lane))
  }

  /** The shape of every normalised task. */
  predicate ValidContent(c: Content) {
    && IsTaskId(c.id) && IsSlug(c.slug)
    && (forall f :: f in c.files ==> PlainRelative(f))
    && c.commitMessage != "" && Trimmed(c.commitMessage) && Trimmed(c.area)
  }

  lemma {:induction false} NormalizePathsPlain(items: seq<Json>)
    ensures NormalizePaths(items).Ok? ==>
              |NormalizePaths(items).value| == |items| && forall f :: f in NormalizePaths(items).value ==>
                                                            PlainRelative(f)
  {
    if items != [] {
      NormalizedIsPlain(Str(items[0]));
      NormalizePathsPlain(items[1..]);
    }
  }

  lemma NormalizedTaskValid(raw: RawTask)
    requires raw.RawTask?
    ensures NormalizeTask(raw).Ok? ==> ValidContent(NormalizeTask(raw).value)
  {
    if NormalizeTask(raw).Ok? {
      NormalizePathsPlain(raw.files.value.items);
      StripIsTrimmed(Str(raw.commitMessage.value));
      StripIsTrimmed(Str(raw.area.value));
    }
  }

  // ---------------------------------------------------------------- proposing a stored task again

  function Strings(items: seq<string>): (r: seq<Json>)
    ensures |r| == |items|
    ensures forall i :: 0 <= i < |items| ==> r[i] == String(items[i])
  {
    if items == [] then [] else [String(items[0])] + Strings(items[1..])
  }

  /** The proposal entry that names every field of a stored task. */
  function Reproposed(c: Content): RawTask {
    RawTask(
      Some(String(c.id)), Some(String(c.slug)), Some(String(c.area)), Some(String(RiskName(c.risk))),
      Some(Array(Strings(c.files))), Some(Array(Strings(c.tests))), Some(String(c.commitMessage)),
      Some(String(c.artifactMarkdown)), Some(String(c.activationPrompt)),
      Some(Array(Strings(c.dependencies))),
      if c.lane.Some? then Some(String(LaneName(c.lane.value))) else None)
  }

  predicate StablePath(f: string) { Trimmed(f) && !HasDrive(f) }

  ghost predicate IsNormalForm(f: string) { exists raw :: NormalizePath(raw) == Ok(f) }

  predicate IsFixedPath(f: string) { NormalizePath(f) == Ok(f) }

  lemma StableIff(f: string)
    requires IsNormalForm(f)
    ensures IsFixedPath(f) <==> StablePath(f)
  {
    var raw :| NormalizePath(raw) == Ok(f);
    NormalizeStableIff(raw);
  }

  lemma {:induction false} NormalizePathsFixed(files: seq<string>)
    ensures NormalizePaths(Strings(files)) == Ok(files) <==> forall f :: f in files ==> IsFixedPath(f)
  {
    hide NormalizePath;
    if files != [] {
      var rest := files[1..];
      NormalizePathsFixed(rest);
      assert Strings(files)[1..] == Strings(rest);
      assert files == [files[0]] + rest;
      assert forall f :: f in files <==> f == files[0] || f in rest;
      var first, others := NormalizePath(files[0]), NormalizePaths(Strings(rest));
      assert Strings(files)[0] == String(files[0]);
      if first.Err? {
        assert !IsFixedPath(files[0]) && NormalizePaths(Strings(files)).Err?;
      } else if others.Err? {
        assert NormalizePaths(Strings(files)).Err?;
      } else {
        var all := [first.value] + others.value;
        assert NormalizePaths(Strings(files)) == Ok(all);
        assert all[0] == first.value && all[1..] == others.value;
        assert IsFixedPath(files[0]) <==> first.value == files[0];
        if all != files {
          assert first.value != files[0] || others.value != rest;
        }
      }
    }
  }

  lemma {:induction false} NormalizedPathsComeFrom(items: seq<Json>)
    ensures NormalizePaths(items).Ok? ==> forall f :: f in NormalizePaths(items).value ==> IsNormalForm(f)
  {
    if items != [] {
      NormalizedPathsComeFrom(items[1..]);
    }
  }

  lemma TextsOfStrings(items: seq<string>)
    ensures Texts(Strings(items)) == items
  {
  }

  lemma NamesTrimmed(s: string)
    requires IsTaskId(s) || IsSlug(s)
    ensures Strip(s) == s
  {
    assert s[0] in s && s[|s| - 1] in s;
    StripTrimmed(s);
  }

  lemma {:induction false} UpperFixed(s: string)
    requires forall c :: c in s ==> !IsLower(c)
    ensures ToUpper(s) == s
  {
    if s != "" {
      assert s[0] in s && forall c :: c in s[1..] ==> c in s;
      UpperFixed(s[1..]);
      assert s == [s[0]] + s[1..];
    }
  }

  lemma RiskReads(risk: Risk)
    ensures ParseRisk(ToUpper(Strip(RiskName(risk)))) == Some(risk)
  {
    StripTrimmed(RiskName(risk));
    UpperFixed(RiskName(risk));
  }

  lemma LaneReads(lane: Lane)
    ensures LaneText(Some(String(LaneName(lane)))) == LaneName(lane) != ""
    ensures ParseLane(LaneName(lane)) == Some(lane)
  {
    StripTrimmed(LaneName(lane));
  }

  lemma ReproposalHeader(c: Content)
    requires IsTaskId(c.id) && IsSlug(c.slug)
    ensures NormalizeTask(Reproposed(c)) == NormalizeLists(Reproposed(c), c.lane, c.risk)
  {
    NamesTrimmed(c.id);
    NamesTrimmed(c.slug);
    RiskReads(c.risk);
    if c.lane.Some? {
      LaneReads(c.lane.value);
    }
  }

  /** Everything but the files of a normalised task is a fixed point of its own normalisation. */
  lemma ReproposalLists(c: Content)
    requires ValidContent(c)
    ensures NormalizeLists(Reproposed(c), c.lane, c.risk) ==
              match NormalizePaths(Strings(c.files))
              case Err(e) => Err(InvalidFile(e))
              case Ok(paths) => Ok(c.(files := paths))
  {
    NamesTrimmed(c.id);
    NamesTrimmed(c.slug);
    StripTrimmed(c.area);
    StripTrimmed(c.commitMessage);
    TextsOfStrings(c.tests);
    TextsOfStrings(c.dependencies);
  }

  /**
   Proposing a stored task again, field by field, yields the stored content exactly when every
   stored path is stable under normalisation.
   */
  lemma ReproposalIff(raw: RawTask)
    requires raw.RawTask? && NormalizeTask(raw).Ok?
    ensures var c := NormalizeTask(raw).value;
            NormalizeTask(Reproposed(c)) == Ok(c) <==> forall f :: f in c.files ==> StablePath(f)
  {
    var c := NormalizeTask(raw).value;
    NormalizedTaskValid(raw);
    ReproposalHeader(c);
    ReproposalLists(c);
    NormalizedPathsComeFrom(raw.files.value.items);
    NormalizePathsFixed(c.files);
    forall f | f in c.files
      ensures IsFixedPath(f) <==> StablePath(f)
    {
      StableIff(f);
    }
  }
}
