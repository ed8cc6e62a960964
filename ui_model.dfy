/** The interactive state machine of internal/ui/model.go: the catalog, the key handling of
    `Update`, the version fetch and the file generation it triggers. */
module Ui {
  import opened Wrappers
  import opened Tea
  import opened Fs
  import opened Selection
  import opened Resolution
  import Generator

  datatype Provider = Provider(Name: string, Source: string, LatestVersion: string, IsVersionLatest: bool)

  /** The spinner and the registry client are not part of the model. */
  datatype Model = Model(
    Providers: seq<Provider>,
    Selected: seq<bool>,
    Cursor: int,
    Loading: bool,
    VersionsLoaded: bool,
    Error: string,
    FilesGenerated: bool,
    TargetDir: string)

  /** A key press (by its `String()` name), the fetch result, a spinner frame, or anything else. */
  datatype Msg =
    | KeyPress(key: string)
    | VersionsFetched(providers: seq<Provider>, err: Option<string>)
    | SpinnerFrame
    | OtherMsg

  /** What one call of `Update` produces: the new model, the command, and the file-system
      operations it attempted, in order. */
  datatype Step = Step(model: Model, cmd: Cmd, ops: seq<FsOp>)

  // ---------------------------------------------------------------- the catalog

  function Catalog(): (ps: seq<Provider>)
    ensures |ps| == 6
    ensures forall i :: 0 <= i < |ps| ==> Generator.IsKnown(ps[i].Name)
    ensures forall i :: 0 <= i < |ps| ==> ps[i].LatestVersion == "" && !ps[i].IsVersionLatest
    ensures forall i, j :: 0 <= i < j < |ps| ==> ps[i].Name != ps[j].Name && ps[i].Source != ps[j].Source
  {
    [ Provider("aws", "hashicorp/aws", "", false),
      Provider("google", "hashicorp/google", "", false),
      Provider("azurerm", "hashicorp/azurerm", "", false),
      Provider("github", "integrations/github", "", false),
      Provider("vercel", "vercel/vercel", "", false),
      Provider("cloudflare", "cloudflare/cloudflare", "", false) ]
  }

  /** The model's shape that every transition keeps: one flag per provider and the cursor on a
      provider. */
  predicate Valid(m: Model)
  {
    |m.Selected| == |m.Providers| && 0 <= m.Cursor < |m.Providers|
  }

  /** The start state: the catalog with nothing selected, the cursor on the first entry, and the
      version fetch under way. */
  function InitialModel(targetDir: string): (m: Model)
    ensures Valid(m) && m.Cursor == 0
    ensures m.Providers == Catalog() && forall i :: 0 <= i < |m.Selected| ==> !m.Selected[i]
    ensures m.Loading && !m.VersionsLoaded && !m.FilesGenerated && m.Error == ""
    ensures m.TargetDir == targetDir
  {
    Model(Catalog(), [false, false, false, false, false, false], 0, true, false, "", false, targetDir)
  }

  // ---------------------------------------------------------------- fetchAllVersions

  function NameOf(p: Provider): string { p.Name }
  function SourceOf(p: Provider): string { p.Source }

  /** What a successful fetch does to a provider's slot. */
  function MarkLatest(p: Provider, version: string): Provider
  {
    p.(LatestVersion := version, IsVersionLatest := true)
  }

  /** A provider after its fetch: the fetched version marked latest, or unchanged on failure. */
  function Refresh(p: Provider, fetch: Fetcher): (q: Provider)
    ensures q.Name == p.Name && q.Source == p.Source
    ensures fetch(p.Source).Success? ==> q.LatestVersion == fetch(p.Source).value && q.IsVersionLatest
    ensures fetch(p.Source).Failure? ==> q == p
  {
    Refreshed(p, SourceOf, MarkLatest, fetch)
  }

  function Resolved(ps: seq<Provider>, fetch: Fetcher): (rs: seq<Provider>)
    ensures |rs| == |ps| && forall i :: 0 <= i < |ps| ==> rs[i] == Refresh(ps[i], fetch)
  {
    AllRefreshed(ps, SourceOf, MarkLatest, fetch)
  }

  /** `fetchAllVersions`: every provider refreshed from the registry, whatever order the
      goroutines finish in, and the first failure in that order reported. */
  method FetchAllVersions(ps: seq<Provider>, fetch: Fetcher, order: seq<nat>)
    returns (updated: seq<Provider>, err: Option<string>)
    requires IsCompletionOrder(order, |ps|)
    ensures updated == Resolved(ps, fetch)
    ensures err == FirstError(ps, NameOf, SourceOf, fetch, order)
  {
    updated, err := FetchAll(ps, NameOf, SourceOf, MarkLatest, fetch, order);
  }

  /** Starting from the catalog's unmarked entries, whatever the completion order, the message
      carries no error exactly when every provider ends up marked latest. */
  lemma FetchErrorIffSomeUnmarked(ps: seq<Provider>, fetch: Fetcher, order: seq<nat>)
    requires IsCompletionOrder(order, |ps|)
    requires forall i :: 0 <= i < |ps| ==> !ps[i].IsVersionLatest
    ensures FirstError(ps, NameOf, SourceOf, fetch, order).None? <==>
              forall i :: 0 <= i < |ps| ==> Resolved(ps, fetch)[i].IsVersionLatest
  {
    NoErrorIffAllSucceed(ps, NameOf, SourceOf, fetch, order);
    if FirstError(ps, NameOf, SourceOf, fetch, order).Some? {
      var i :| 0 <= i < |ps| && fetch(SourceOf(ps[i])).Failure?;
      assert !Resolved(ps, fetch)[i].IsVersionLatest;
    }
  }

  // ---------------------------------------------------------------- generateFiles

  /** What `generateFiles` hands to the renderers for one provider. */
  function ConfigOf(p: Provider): Generator.ProviderConfig
  {
    Generator.ProviderConfig(p.Name, p.Source, p.LatestVersion)
  }

  function Configs(ps: seq<Provider>): (cs: seq<Generator.ProviderConfig>)
    ensures |cs| == |ps| && forall i :: 0 <= i < |ps| ==> cs[i] == ConfigOf(ps[i])
  {
    seq(|ps|, i requires 0 <= i < |ps| => ConfigOf(ps[i]))
  }

  lemma ConfigsSnoc(ps: seq<Provider>, p: Provider)
    ensures Configs(ps + [p]) == Configs(ps) + [ConfigOf(p)]
  {
    assert forall i :: 0 <= i < |ps| ==> (ps + [p])[i] == ps[i];
  }

  /** The target directory is created, and names the project, unless it is empty or ".". */
  predicate OwnDirectory(dir: string)
  {
    dir != "" && dir != "."
  }

  const DefaultProjectName := "my_project"

  /** The project name: the last element of the target directory, or the default. */
  function ProjectNameFor(dir: string): (name: string)
    ensures name != "" && (name == "/" || '/' !in name)
    ensures !OwnDirectory(dir) ==> name == DefaultProjectName
    ensures OwnDirectory(dir) ==> name == Base(dir)
  {
    if OwnDirectory(dir) then Base(dir) else DefaultProjectName
  }

  /** The data the four renderers see: the project name and the selected providers, in catalog
      order. */
  function GenData(m: Model): Generator.GeneratorData
    requires |m.Providers| <= |m.Selected|
  {
    Generator.GeneratorData(ProjectNameFor(m.TargetDir), Configs(Chosen(m.Providers, m.Selected)))
  }

  datatype OutputFile = ProviderTf | VariablesTf | TerraformTfvars | MainTf

  /** The files in the order they are written. */
  const OutputFiles := [ProviderTf, VariablesTf, TerraformTfvars, MainTf]

  function FileName(f: OutputFile): (name: string)
    ensures name != [] && '/' !in name
  {
    match f
    case ProviderTf => "provider.tf"
    case VariablesTf => "variables.tf"
    case TerraformTfvars => "terraform.tfvars"
    case MainTf => "main.tf"
  }

  function Render(f: OutputFile, d: Generator.GeneratorData): (text: string)
    ensures f == TerraformTfvars ==> Generator.TfvarsOpen + d.ProjectName + Generator.TfvarsClose <= text
    ensures f == MainTf ==> text == Generator.MainText
  {
    match f
    case ProviderTf => Generator.GenerateProviderFile(d)
    case VariablesTf => Generator.GenerateVariablesFile(d)
    case TerraformTfvars => Generator.GenerateTfvarsFile(d)
    case MainTf => Generator.GenerateMainFile(d)
  }

  /** A file goes inside the target directory, or into the working directory when there is none. */
  function FilePath(dir: string, name: string): (path: string)
    ensures dir == "" ==> path == name
    ensures dir != "" ==> dir + "/" <= path && path[|dir| + 1..] == name
  {
    if dir != "" then Join(dir, name) else name
  }

  /** The `gen` column of the file table, applied to one set of data. */
  function Renderer(d: Generator.GeneratorData): OutputFile -> string
  {
    f => Render(f, d)
  }

  /** The write of one output file. */
  function WriteOf(dir: string, f: OutputFile, gen: OutputFile -> string): FsOp
  {
    WriteFile(FilePath(dir, FileName(f)), gen(f))
  }

  /** The four writes, in order, for a target directory and a renderer. */
  function WritesWith(dir: string, gen: OutputFile -> string): (ws: seq<FsOp>)
    ensures |ws| == |OutputFiles| && forall k :: 0 <= k < |ws| ==> ws[k].WriteFile?
  {
    seq(|OutputFiles|, i requires 0 <= i < |OutputFiles| => WriteOf(dir, OutputFiles[i], gen))
  }

  /** The k-th planned write is the one the loop builds for the k-th file. */
  lemma WriteAt(dir: string, gen: OutputFile -> string, k: nat, op: FsOp)
    requires k < |OutputFiles|
    requires op == WriteFile(if dir != "" then Join(dir, FileName(OutputFiles[k])) else FileName(OutputFiles[k]), gen(OutputFiles[k]))
    ensures op == WritesWith(dir, gen)[k]
    ensures WritesWith(dir, gen)[..k + 1] == WritesWith(dir, gen)[..k] + [op]
  {
    var ws := WritesWith(dir, gen);
    assert ws[k] == WriteOf(dir, OutputFiles[k], gen);
    assert ws[..k + 1] == ws[..k] + [ws[k]];
  }

  /** The four writes `generateFiles` means to make, in order. */
  function Writes(m: Model): (ws: seq<FsOp>)
    requires |m.Providers| <= |m.Selected|
    ensures |ws| == |OutputFiles| && forall k :: 0 <= k < |ws| ==> ws[k].WriteFile?
  {
    WritesWith(m.TargetDir, Renderer(GenData(m)))
  }

  /** `fmt.Errorf("failed to create directory %s: %w", dir, err).Error()` */
  function MkdirErrorText(dir: string, cause: string): string
  {
    "failed to create directory " + dir + ": " + cause
  }

  /** What `generateFiles` does with a target directory and its planned writes: create the
      directory when it is its own, then attempt the writes, stopping at the first failure. */
  function GenerationOf(dir: string, writes: seq<FsOp>, fs: FsOracle): (o: Outcome)
    ensures o.ops <= PlanOf(dir, writes)
    ensures OwnDirectory(dir) || writes != [] ==> o.ops != []
  {
    if OwnDirectory(dir) && fs(MkdirAll(dir)).Some? then
      Outcome([MkdirAll(dir)], Some(MkdirErrorText(dir, fs(MkdirAll(dir)).value)))
    else
      var w := Attempt(writes, fs);
      Outcome((if OwnDirectory(dir) then [MkdirAll(dir)] else []) + w.ops, w.err)
  }

  /** What `generateFiles` does, as a function of the model and the file system. */
  function Generation(m: Model, fs: FsOracle): (o: Outcome)
    requires |m.Providers| <= |m.Selected|
  {
    GenerationOf(m.TargetDir, Writes(m), fs)
  }

  /** The directory step, if any, followed by the writes. */
  function PlanOf(dir: string, writes: seq<FsOp>): seq<FsOp>
  {
    (if OwnDirectory(dir) then [MkdirAll(dir)] else []) + writes
  }

  /** Generation succeeds exactly when every planned operation does, and then it has
      attempted the whole plan. */
  lemma GenerationOfSucceedsIff(dir: string, writes: seq<FsOp>, fs: FsOracle)
    ensures var g := GenerationOf(dir, writes, fs);
      (g.err.None? <==> forall k :: 0 <= k < |PlanOf(dir, writes)| ==> fs(PlanOf(dir, writes)[k]).None?)
      && (g.err.None? ==> g.ops == PlanOf(dir, writes))
  {
    var plan := PlanOf(dir, writes);
    var pre: seq<FsOp> := if OwnDirectory(dir) then [MkdirAll(dir)] else [];
    assert forall k :: |pre| <= k < |plan| ==> plan[k] == writes[k - |pre|];
    if forall k :: 0 <= k < |plan| ==> fs(plan[k]).None? {
      assert forall k :: 0 <= k < |writes| ==> fs(writes[k]).None? by {
        forall k | 0 <= k < |writes| ensures fs(writes[k]).None? {
          assert plan[k + |pre|] == writes[k];
        }
      }
      AttemptSucceeds(writes, fs);
      if OwnDirectory(dir) {
        assert plan[0] == MkdirAll(dir);
      }
    } else if GenerationOf(dir, writes, fs).err.None? {
      assert !(OwnDirectory(dir) && fs(MkdirAll(dir)).Some?);
      AttemptSucceeded(writes, fs);
      assert false;
    }
  }

  /** A failed generation attempted a prefix of its plan, every operation before the last
      succeeded, and the error is the last one's, the directory error wrapped with the
      directory's name. */
  lemma GenerationOfStopsAtFailure(dir: string, writes: seq<FsOp>, fs: FsOracle)
    requires forall k :: 0 <= k < |writes| ==> writes[k].WriteFile?
    ensures var g := GenerationOf(dir, writes, fs);
      g.err.Some? ==>
        && g.ops != [] && g.ops <= PlanOf(dir, writes)
        && (forall k :: 0 <= k < |g.ops| - 1 ==> fs(g.ops[k]).None?)
        && var last := g.ops[|g.ops| - 1];
           && fs(last).Some?
           && g.err.value == if last.MkdirAll? then MkdirErrorText(dir, fs(last).value) else fs(last).value
  {
    var g := GenerationOf(dir, writes, fs);
    if g.err.Some? && !(OwnDirectory(dir) && fs(MkdirAll(dir)).Some?) {
      var w := Attempt(writes, fs);
      var pre: seq<FsOp> := if OwnDirectory(dir) then [MkdirAll(dir)] else [];
      assert g.ops == pre + w.ops;
      assert forall k :: |pre| <= k < |g.ops| ==> g.ops[k] == w.ops[k - |pre|];
      assert g.ops[|g.ops| - 1] == w.ops[|w.ops| - 1];
      assert w.ops[|w.ops| - 1] in writes;
    }
  }

  /** `generateFiles` follows its plan and stops at the first failure, for any target
      directory and list of writes; `Generation` is this with the model's own writes. */
  lemma GenerationOfFollowsPlan(dir: string, writes: seq<FsOp>, fs: FsOracle)
    requires forall k :: 0 <= k < |writes| ==> writes[k].WriteFile?
    ensures var g := GenerationOf(dir, writes, fs);
      && g.ops <= PlanOf(dir, writes)
      && (forall k :: 0 <= k < |g.ops| - 1 ==> fs(g.ops[k]).None?)
      && (g.err.None? <==> g.ops == PlanOf(dir, writes) && forall k :: 0 <= k < |g.ops| ==> fs(g.ops[k]).None?)
      && (g.err.Some? ==>
            var last := g.ops[|g.ops| - 1];
            && fs(last).Some?
            && g.err.value == if last.MkdirAll? then MkdirErrorText(dir, fs(last).value) else fs(last).value)
  {
    GenerationOfSucceedsIff(dir, writes, fs);
    GenerationOfStopsAtFailure(dir, writes, fs);
  }

  /** Every file is written inside the target directory (or the working directory when the
      target is empty) under its own name, holding its rendering of the model's data. */
  lemma WritesLandInTarget(m: Model, k: nat)
    requires |m.Providers| <= |m.Selected| && k < |OutputFiles|
    ensures Writes(m)[k].WriteFile?
    ensures Writes(m)[k].content == Render(OutputFiles[k], GenData(m))
    ensures m.TargetDir == "" ==> Writes(m)[k].path == FileName(OutputFiles[k]) && '/' !in Writes(m)[k].path
    ensures m.TargetDir != "" ==>
              m.TargetDir + "/" <= Writes(m)[k].path && Writes(m)[k].path[|m.TargetDir| + 1..] == FileName(OutputFiles[k])
  {
  }

  /** The renderers see exactly the selected providers, in catalog order. */
  lemma GenDataListsSelection(m: Model)
    requires |m.Providers| <= |m.Selected|
    ensures var idx := SelectedIndices(m.Selected, |m.Providers|);
      && |GenData(m).Providers| == |idx|
      && forall k :: 0 <= k < |idx| ==> GenData(m).Providers[k] == ConfigOf(m.Providers[idx[k]])
  {
    ChosenInOrder(m.Providers, m.Selected);
  }

  /** A target directory `parent/leaf` names the project `leaf`. */
  lemma ProjectNameIsLastElement(parent: string, leaf: string)
    requires leaf != "" && '/' !in leaf
    ensures ProjectNameFor(Join(parent, leaf)) == leaf
  {
    BaseOfJoin(parent, leaf);
  }

  /** `generateFiles`: create the directory, collect the selected providers, then render and
      write the four files, returning the first error. */
  method GenerateFiles(m: Model, fs: FsOracle) returns (ops: seq<FsOp>, err: Option<string>)
    requires |m.Providers| <= |m.Selected|
    ensures Outcome(ops, err) == Generation(m, fs)
  {
    var dir := m.TargetDir;
    ops := [];
    if dir != "" && dir != "." {
      ops := [MkdirAll(dir)];
      var e := fs(MkdirAll(dir));
      if e.Some? {
        err := Some(MkdirErrorText(dir, e.value));
        return;
      }
    }
    var name := DefaultProjectName;
    if dir != "" && dir != "." {
      name := Base(dir);
    }
    var configs: seq<Generator.ProviderConfig> := [];
    var i := 0;
    while i < |m.Providers|
      invariant 0 <= i <= |m.Providers|
      invariant configs == Configs(Chosen(m.Providers[..i], m.Selected))
    {
      ChosenStep(m.Providers, m.Selected, i);
      if m.Selected[i] {
        ConfigsSnoc(Chosen(m.Providers[..i], m.Selected), m.Providers[i]);
        configs := configs + [ConfigOf(m.Providers[i])];
      } else {
        assert Chosen(m.Providers[..i + 1], m.Selected) == Chosen(m.Providers[..i], m.Selected) + [];
      }
      i := i + 1;
    }
    assert m.Providers[..i] == m.Providers;
    var data := Generator.GeneratorData(name, configs);
    assert data == GenData(m);
    var w := WriteOutputs(dir, Renderer(data), fs);
    ops := ops + w.ops;
    err := w.err;
  }

  /** The `for _, f := range files` loop of `generateFiles`: render each file and write it,
      returning at the first error. */
  method WriteOutputs(dir: string, gen: OutputFile -> string, fs: FsOracle) returns (o: Outcome)
    ensures o == Attempt(WritesWith(dir, gen), fs)
  {
    ghost var ws := WritesWith(dir, gen);
    var ops: seq<FsOp> := [];
    var k := 0;
    while k < |OutputFiles|
      invariant 0 <= k <= |OutputFiles| == |ws|
      invariant forall j :: 0 <= j < k ==> fs(ws[j]).None?
      invariant ops == ws[..k]
    {
      var f := OutputFiles[k];
      var path := FileName(f);
      if dir != "" {
        path := Join(dir, path);
      }
      var op := WriteFile(path, gen(f));
      assert op == ws[k] && ws[..k + 1] == ops + [op] by { WriteAt(dir, gen, k, op); }
      ops := ops + [op];
      if fs(op).Some? {
        assert Attempt(ws, fs) == Outcome(ops, fs(op)) by { AttemptStopsAt(ws, k, fs); }
        return Outcome(ops, fs(op));
      }
      k := k + 1;
    }
    assert Attempt(ws, fs) == Outcome(ops, None) by {
      assert ws[..k] == ws;
      AttemptSucceeds(ws, fs);
    }
    return Outcome(ops, None);
  }

  // ---------------------------------------------------------------- Update

  /** Keys are acted on only while the list is shown. */
  predicate Interactive(m: Model)
  {
    !m.Loading && !m.FilesGenerated
  }

  predicate IsToggleKey(key: string) { key == "enter" || key == " " }
  predicate IsGenerateKey(key: string) { key == "g" || key == "G" }

  /** The Bubble Tea transition function. A key is ignored while loading or after generation,
      except the three quit keys; otherwise it moves the cursor, toggles the provider under it,
      generates the files or quits. The fetch result ends loading and installs the providers. */
  function Update(m: Model, msg: Msg, fs: FsOracle): (r: Step)
    requires msg.KeyPress? && Interactive(m) && IsToggleKey(msg.key) ==> 0 <= m.Cursor < |m.Selected|
    requires msg.KeyPress? && Interactive(m) && IsGenerateKey(msg.key) ==> |m.Providers| <= |m.Selected|
    ensures r.cmd == Quit <==>
              msg.KeyPress? && (msg.key == "ctrl+c" || msg.key == "q" || (msg.key == "enter" && !Interactive(m)))
    ensures r.cmd == SpinnerTick <==> msg.SpinnerFrame?
    ensures msg.KeyPress? && !Interactive(m) ==> r.model == m
    ensures r.ops != [] <==> msg.KeyPress? && Interactive(m) && IsGenerateKey(msg.key)
    ensures r.model.FilesGenerated <==> m.FilesGenerated || r.ops != []
    ensures r.model.Loading ==> m.Loading
    ensures r.model.TargetDir == m.TargetDir
  {
    match msg
    case KeyPress(key) =>
      if m.Loading || m.FilesGenerated then
        Step(m, if key == "ctrl+c" || key == "q" || key == "enter" then Quit else NoCmd, [])
      else if key == "ctrl+c" || key == "q" then Step(m, Quit, [])
      else if key == "up" || key == "k" then
        Step(m.(Cursor := if m.Cursor > 0 then m.Cursor - 1 else m.Cursor), NoCmd, [])
      else if key == "down" || key == "j" then
        Step(m.(Cursor := if m.Cursor < |m.Providers| - 1 then m.Cursor + 1 else m.Cursor), NoCmd, [])
      else if IsToggleKey(key) then
        Step(m.(Selected := m.Selected[m.Cursor := !m.Selected[m.Cursor]]), NoCmd, [])
      else if IsGenerateKey(key) then
        GenerationAttempts(m, fs);
        var g := Generation(m, fs);
        Step(m.(FilesGenerated := true, Error := if g.err.Some? then g.err.value else m.Error), NoCmd, g.ops)
      else Step(m, NoCmd, [])
    case SpinnerFrame => Step(m, SpinnerTick, [])
    case VersionsFetched(ps, err) =>
      Step(m.(Loading := false, VersionsLoaded := true, Providers := ps,
              Error := if err.Some? then err.value else m.Error), NoCmd, [])
    case OtherMsg => Step(m, NoCmd, [])
  }

  /** Only the toggle keys change the selection, and they flip exactly the flag under the
      cursor. */
  lemma UpdateToggles(m: Model, msg: Msg, fs: FsOracle)
    requires msg.KeyPress? && Interactive(m) && IsToggleKey(msg.key) ==> 0 <= m.Cursor < |m.Selected|
    requires msg.KeyPress? && Interactive(m) && IsGenerateKey(msg.key) ==> |m.Providers| <= |m.Selected|
    ensures var r := Update(m, msg, fs);
      && |r.model.Selected| == |m.Selected|
      && (r.model.Selected != m.Selected <==> msg.KeyPress? && Interactive(m) && IsToggleKey(msg.key))
      && (forall i :: 0 <= i < |m.Selected| && i != m.Cursor ==> r.model.Selected[i] == m.Selected[i])
      && (msg.KeyPress? && Interactive(m) && IsToggleKey(msg.key) ==>
            r.model.Selected[m.Cursor] == !m.Selected[m.Cursor])
  {
  }

  /** The cursor moves by at most one row per message, and only on the movement keys: up/k
      moves it up unless it is on the first row, down/j moves it down unless it is on the last. */
  lemma UpdateMovesCursor(m: Model, msg: Msg, fs: FsOracle)
    requires msg.KeyPress? && Interactive(m) && IsToggleKey(msg.key) ==> 0 <= m.Cursor < |m.Selected|
    requires msg.KeyPress? && Interactive(m) && IsGenerateKey(msg.key) ==> |m.Providers| <= |m.Selected|
    ensures var r := Update(m, msg, fs);
      && -1 <= r.model.Cursor - m.Cursor <= 1
      && (r.model.Cursor != m.Cursor ==>
            msg.KeyPress? && Interactive(m) && msg.key in {"up", "k", "down", "j"})
      && (msg.KeyPress? && Interactive(m) && (msg.key == "up" || msg.key == "k") ==>
            r.model.Cursor == if m.Cursor > 0 then m.Cursor - 1 else m.Cursor)
      && (msg.KeyPress? && Interactive(m) && (msg.key == "down" || msg.key == "j") ==>
            r.model.Cursor == if m.Cursor < |m.Providers| - 1 then m.Cursor + 1 else m.Cursor)
  {
  }

  /** The fetch result ends loading, installs the fetched providers and reports its error; no
      other message touches the provider list. */
  lemma UpdateInstallsVersions(m: Model, msg: Msg, fs: FsOracle)
    requires msg.KeyPress? && Interactive(m) && IsToggleKey(msg.key) ==> 0 <= m.Cursor < |m.Selected|
    requires msg.KeyPress? && Interactive(m) && IsGenerateKey(msg.key) ==> |m.Providers| <= |m.Selected|
    ensures var r := Update(m, msg, fs);
      && (msg.VersionsFetched? ==>
            r.model.Providers == msg.providers && !r.model.Loading && r.model.VersionsLoaded &&
            r.model.Error == (if msg.err.Some? then msg.err.value else m.Error))
      && (!msg.VersionsFetched? ==> r.model.Providers == m.Providers && r.model.Loading == m.Loading)
  {
  }

  /** The generate key runs `generateFiles` once and reports its error, if any; the error
      shown changes only through a fetch result or a generation. */
  lemma UpdateGenerates(m: Model, msg: Msg, fs: FsOracle)
    requires msg.KeyPress? && Interactive(m) && IsToggleKey(msg.key) ==> 0 <= m.Cursor < |m.Selected|
    requires msg.KeyPress? && Interactive(m) && IsGenerateKey(msg.key) ==> |m.Providers| <= |m.Selected|
    ensures var r := Update(m, msg, fs);
      && (msg.KeyPress? && Interactive(m) && IsGenerateKey(msg.key) ==>
            r.model.FilesGenerated && r.ops == Generation(m, fs).ops &&
            r.model.Error == (if Generation(m, fs).err.Some? then Generation(m, fs).err.value else m.Error))
      && (r.model.Error != m.Error ==> msg.VersionsFetched? || r.ops != [])
  {
    var r := Update(m, msg, fs);
    if msg.KeyPress? && Interactive(m) && IsGenerateKey(msg.key) {
      var g := Generation(m, fs);
      assert msg.key != "ctrl+c" && msg.key != "q" && msg.key != "up" && msg.key != "k";
      assert msg.key != "down" && msg.key != "j" && !IsToggleKey(msg.key);
      assert r == Step(m.(FilesGenerated := true, Error := if g.err.Some? then g.err.value else m.Error), NoCmd, g.ops);
    } else if !msg.VersionsFetched? {
      assert r.model.Error == m.Error;
    }
  }

  /** Every message keeps the model's shape, provided a fetch result has one entry per provider. */
  lemma UpdateKeepsValid(m: Model, msg: Msg, fs: FsOracle)
    requires Valid(m) && (msg.VersionsFetched? ==> |msg.providers| == |m.Providers|)
    ensures Valid(Update(m, msg, fs).model)
    ensures |Update(m, msg, fs).model.Providers| == |m.Providers|
  {
  }

  /** Generation always attempts at least one operation. */
  lemma GenerationAttempts(m: Model, fs: FsOracle)
    requires |m.Providers| <= |m.Selected|
    ensures Generation(m, fs).ops != []
  {
    assert Writes(m) != [];
  }

  // ---------------------------------------------------------------- runs

  /** Every fetch result the runtime delivers carries one provider per catalog entry. */
  predicate FitsCatalog(msgs: seq<Msg>, n: nat)
  {
    forall k :: 0 <= k < |msgs| && msgs[k].VersionsFetched? ==> |msgs[k].providers| == n
  }

  /** The steps taken on a sequence of messages from a valid model. */
  function Run(m: Model, msgs: seq<Msg>, fs: FsOracle): (steps: seq<Step>)
    requires Valid(m) && FitsCatalog(msgs, |m.Providers|)
    ensures |steps| == |msgs|
    decreases |msgs|
  {
    if msgs == [] then []
    else
      var s := Update(m, msgs[0], fs);
      UpdateKeepsValid(m, msgs[0], fs);
      assert FitsCatalog(msgs[1..], |s.model.Providers|) by {
        assert forall k :: 0 <= k < |msgs| - 1 ==> msgs[1..][k] == msgs[k + 1];
      }
      [s] + Run(s.model, msgs[1..], fs)
  }

  /** Once the files are generated, no later message touches the file system again. */
  lemma {:induction false} NothingAfterGeneration(m: Model, msgs: seq<Msg>, fs: FsOracle)
    requires Valid(m) && FitsCatalog(msgs, |m.Providers|) && m.FilesGenerated
    ensures forall k :: 0 <= k < |msgs| ==> Run(m, msgs, fs)[k].ops == [] && Run(m, msgs, fs)[k].model.FilesGenerated
    decreases |msgs|
  {
    if msgs != [] {
      var s := Update(m, msgs[0], fs);
      UpdateKeepsValid(m, msgs[0], fs);
      assert FitsCatalog(msgs[1..], |s.model.Providers|) by {
        assert forall k :: 0 <= k < |msgs| - 1 ==> msgs[1..][k] == msgs[k + 1];
      }
      NothingAfterGeneration(s.model, msgs[1..], fs);
    }
  }

  /** In any session the files are generated at most once. */
  lemma {:induction false} AtMostOneGeneration(m: Model, msgs: seq<Msg>, fs: FsOracle)
    requires Valid(m) && FitsCatalog(msgs, |m.Providers|)
    ensures forall i, j :: 0 <= i < j < |msgs| && Run(m, msgs, fs)[i].ops != [] ==> Run(m, msgs, fs)[j].ops == []
    decreases |msgs|
  {
    if msgs != [] {
      var s := Update(m, msgs[0], fs);
      UpdateKeepsValid(m, msgs[0], fs);
      assert FitsCatalog(msgs[1..], |s.model.Providers|) by {
        assert forall k :: 0 <= k < |msgs| - 1 ==> msgs[1..][k] == msgs[k + 1];
      }
      AtMostOneGeneration(s.model, msgs[1..], fs);
      if s.ops != [] {
        NothingAfterGeneration(s.model, msgs[1..], fs);
      }
    }
  }
}
