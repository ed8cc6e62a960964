/** The single-file program of main.go: the same provider picker as the `ui` package, but it
    writes its four files into the working directory with hand-written `strings.Builder` code,
    generates on the `y` key, and reports the last write error rather than the first. */
module Legacy {
  import opened Wrappers
  import opened Tea
  import opened Fs
  import opened Text
  import opened Selection
  import opened Resolution
  import Generator

  /** Version is the version already in use; nothing in the program sets it. */
  datatype Provider = Provider(Name: string, Source: string, Version: string, LatestVersion: string, IsVersionLatest: bool)

  /** The spinner is not part of the model. */
  datatype Model = Model(
    Providers: seq<Provider>,
    Selected: seq<bool>,
    Cursor: int,
    Loading: bool,
    VersionsLoaded: bool,
    Error: string,
    FilesGenerated: bool)

  /** A key press (by its `String()` name), the fetch result, a spinner frame, or anything else
      (a window resize included). */
  datatype Msg =
    | KeyPress(key: string)
    | VersionsFetched(providers: seq<Provider>, err: Option<string>)
    | SpinnerFrame
    | OtherMsg

  datatype Step = Step(model: Model, cmd: Cmd, ops: seq<FsOp>)

  // ---------------------------------------------------------------- initialModel

  function Catalog(): (ps: seq<Provider>)
    ensures |ps| == 6
    ensures forall i :: 0 <= i < |ps| ==> Generator.IsKnown(ps[i].Name)
    ensures forall i :: 0 <= i < |ps| ==> ps[i].Version == "" && ps[i].LatestVersion == "" && !ps[i].IsVersionLatest
    ensures forall i, j :: 0 <= i < j < |ps| ==> ps[i].Name != ps[j].Name && ps[i].Source != ps[j].Source
  {
    [ Provider("aws", "hashicorp/aws", "", "", false),
      Provider("google", "hashicorp/google", "", "", false),
      Provider("azurerm", "hashicorp/azurerm", "", "", false),
      Provider("github", "integrations/github", "", "", false),
      Provider("vercel", "vercel/vercel", "", "", false),
      Provider("cloudflare", "cloudflare/cloudflare", "", "", false) ]
  }

  /** One flag per provider and the cursor on a provider. */
  predicate Valid(m: Model)
  {
    |m.Selected| == |m.Providers| && 0 <= m.Cursor < |m.Providers|
  }

  function InitialModel(): (m: Model)
    ensures Valid(m) && m.Cursor == 0
    ensures m.Providers == Catalog() && forall i :: 0 <= i < |m.Selected| ==> !m.Selected[i]
    ensures m.Loading && !m.VersionsLoaded && !m.FilesGenerated && m.Error == ""
  {
    Model(Catalog(), [false, false, false, false, false, false], 0, true, false, "", false)
  }

  // ---------------------------------------------------------------- fetchAllVersions

  function NameOf(p: Provider): string { p.Name }
  function SourceOf(p: Provider): string { p.Source }

  function MarkLatest(p: Provider, version: string): Provider
  {
    p.(LatestVersion := version, IsVersionLatest := true)
  }

  /** A provider after its fetch: the fetched version marked latest, or unchanged on failure;
      the version in use is never touched. */
  function Refresh(p: Provider, fetch: Fetcher): (q: Provider)
    ensures q.Name == p.Name && q.Source == p.Source && q.Version == p.Version
    ensures fetch(p.Source).Success? ==> q.LatestVersion == fetch(p.Source).value && q.IsVersionLatest
    ensures fetch(p.Source).Failure? ==> q == p
  {
    Refreshed(p, SourceOf, MarkLatest, fetch)
  }

  /** `fetchAllVersions(providers)`: the same concurrent fetch as the `ui` package. */
  method FetchAllVersions(ps: seq<Provider>, fetch: Fetcher, order: seq<nat>)
    returns (updated: seq<Provider>, err: Option<string>)
    requires IsCompletionOrder(order, |ps|)
    ensures |updated| == |ps| && forall i :: 0 <= i < |ps| ==> updated[i] == Refresh(ps[i], fetch)
    ensures err == FirstError(ps, NameOf, SourceOf, fetch, order)
  {
    updated, err := FetchAll(ps, NameOf, SourceOf, MarkLatest, fetch, order);
  }

  /** One pass of a builder: for every provider, in order, append `f` of it when it is selected. */
  method AppendSelected(sb: string, ps: seq<Provider>, selected: seq<bool>, f: Provider -> string)
    returns (out: string)
    requires |ps| <= |selected|
    ensures out == sb + ConcatMap(f, Chosen(ps, selected))
  {
    out := sb;
    var i := 0;
    while i < |ps|
      invariant 0 <= i <= |ps|
      invariant out == sb + ConcatMap(f, Chosen(ps[..i], selected))
    {
      ChosenTextStep(f, ps, selected, i);
      if selected[i] {
        out := out + f(ps[i]);
      }
      i := i + 1;
    }
    assert ps[..i] == ps;
  }

  // ---------------------------------------------------------------- generateProviderFile

  const TerraformOpen := "terraform {" + "\n"
  const RequiredOpen := "  required_providers {" + "\n"
  const RequiredClose := "  }" + "\n"
  const TerraformClose := "}" + "\n"

  /** The four lines of one `required_providers` entry. */
  function EntryText(p: Provider): string
  {
    "    " + p.Name + " = {" + "\n" + "      source  = \"" + p.Source + "\"" + "\n" + "      version = \"" + p.LatestVersion + "\"" + "\n" + "    }" + "\n"
  }

  const AwsBlock := "provider \"aws\" {" + "\n" + "  region  = local.aws_region" + "\n" + "  profile = local.aws_profile" + "\n"
    + "  default_tags {" + "\n" + "   tags = local.tags" + "\n" + "  }" + "\n" + "}" + "\n"
  const GoogleBlock := "provider \"google\" {" + "\n" + "  project = local.gcp_project_id" + "\n" + "  region  = local.gcp_region" + "\n" + "}" + "\n"
  const AzurermBlock := "provider \"azurerm\" {" + "\n" + "  subscription_id = local.azure_subscription_id" + "\n" + "  features {}" + "\n" + "}" + "\n"
  const GithubBlock := "provider \"github\" {" + "\n" + "  owner = local.gh_owner" + "\n" + "  token = local.gh_token" + "\n" + "}" + "\n"
  const VercelBlock := "provider \"vercel\" {" + "\n" + "  api_token = local.vercel_api_token" + "\n" + "}" + "\n"
  const CloudflareBlock := "provider \"cloudflare\" {" + "\n" + "  api_token = local.cloudflare_api_token" + "\n" + "}" + "\n"

  /** The `provider` block of a known name; nothing for an unknown one. */
  function ProviderConfigText(name: string): (text: string)
    ensures !Generator.IsKnown(name) <==> text == ""
  {
    if name == "aws" then AwsBlock
    else if name == "google" then GoogleBlock
    else if name == "azurerm" then AzurermBlock
    else if name == "github" then GithubBlock
    else if name == "vercel" then VercelBlock
    else if name == "cloudflare" then CloudflareBlock
    else ""
  }

  /** What the second pass writes for a selected provider: a blank line, then its block. */
  function BlockText(p: Provider): string
  {
    "\n" + ProviderConfigText(p.Name)
  }

  const LocalsOpen := "\n" + "locals {" + "\n" + "  project_name = var.project_name" + "\n"

  const AwsLocals := "  aws_region  = var.aws_region" + "\n" + "  aws_profile = var.aws_profile" + "\n"
  const GoogleLocals := "  gcp_project_id = var.google_project_id" + "\n" + "  gcp_region     = var.google_region" + "\n"
  const AzurermLocals := "  azure_location            = var.azure_location" + "\n" + "  azure_subscription_id     = var.azure_subscription_id" + "\n"
  const GithubLocals := "  gh_owner           = var.gh_owner" + "\n" + "  gh_token           = var.gh_token" + "\n"
  const VercelLocals := "  vercel_api_token = var.vercel_api_token" + "\n"
  const CloudflareLocals := "  cloudflare_api_token = var.cloudflare_api_token" + "\n"

  /** The `locals` lines of a known name; nothing for an unknown one. */
  function LocalText(p: Provider): (text: string)
    ensures !Generator.IsKnown(p.Name) <==> text == ""
  {
    if p.Name == "aws" then AwsLocals
    else if p.Name == "google" then GoogleLocals
    else if p.Name == "azurerm" then AzurermLocals
    else if p.Name == "github" then GithubLocals
    else if p.Name == "vercel" then VercelLocals
    else if p.Name == "cloudflare" then CloudflareLocals
    else ""
  }

  const TagsText := "\n" + "  tags = {" + "\n" + "    project     = local.project_name" + "\n" + "    environment = \"dev\"" + "\n"
    + "    owner       = \"warike\"" + "\n" + "    cost-center  = \"development\"" + "\n" + "    terraform   = \"true\"" + "\n"
    + "  }" + "\n" + "}" + "\n"

  /** The selected providers, in catalog order. */
  function SelectedProviders(m: Model): seq<Provider>
    requires |m.Providers| <= |m.Selected|
  {
    Chosen(m.Providers, m.Selected)
  }

  /** The text `generateProviderFile` writes to provider.tf. */
  function ProviderFileText(m: Model): (text: string)
    requires |m.Providers| <= |m.Selected|
    ensures TerraformOpen + RequiredOpen <= text
    ensures |TagsText| <= |text| && text[|text| - |TagsText|..] == TagsText
  {
    var sel := SelectedProviders(m);
    var entries, blocks, locals := ConcatMap(EntryText, sel), ConcatMap(BlockText, sel), ConcatMap(LocalText, sel);
    FramedPieces(TerraformOpen, RequiredOpen, entries, RequiredClose, TerraformClose, blocks, LocalsOpen, locals, TagsText);
    TerraformOpen + RequiredOpen + entries + RequiredClose + TerraformClose + blocks + LocalsOpen + locals + TagsText
  }

  /** The fixed opening and closing of provider.tf around its variable parts. */
  lemma FramedPieces(a1: string, a2: string, b: string, c: string, d: string, e: string, f: string, g: string, h: string)
    ensures var r := a1 + a2 + b + c + d + e + f + g + h;
      a1 + a2 <= r && |h| <= |r| && r[|r| - |h|..] == h
  {
    var r := a1 + a2 + b + c + d + e + f + g + h;
    assert r == (a1 + a2) + (b + c + d + e + f + g) + h;
    Framed(a1 + a2, b + c + d + e + f + g, h);
  }

  /** `generateProviderFile` without the write: three passes over the providers, each
      appending the text of the selected ones. */
  method BuildProviderFile(m: Model) returns (text: string)
    requires |m.Providers| <= |m.Selected|
    ensures text == ProviderFileText(m)
  {
    var sb := TerraformOpen + RequiredOpen;
    sb := AppendSelected(sb, m.Providers, m.Selected, EntryText);
    sb := sb + RequiredClose + TerraformClose;
    sb := AppendSelected(sb, m.Providers, m.Selected, BlockText);
    sb := sb + LocalsOpen;
    sb := AppendSelected(sb, m.Providers, m.Selected, LocalText);
    text := sb + TagsText;
  }

  // ---------------------------------------------------------------- generateVariablesFile

  const ProjectVariable := "variable \"project_name\" {\n" + "  description = \"Name of the project\"\n"
    + "  type        = string\n" + "  default     = \"my_project\"\n" + "}\n"

  const AwsVariables := "\n" + "variable \"aws_region\" {\n" + "  description = \"AWS region\"\n" + "  type        = string\n"
    + "  default     = \"us-west-2\"\n" + "}\n" + "\n" + "variable \"aws_profile\" {\n" + "  description = \"AWS profile name\"\n"
    + "  type        = string\n" + "  default     = \"default\"\n" + "}\n"
  const GoogleVariables := "\n" + "variable \"google_project_id\" {\n" + "  description = \"Google Cloud project ID\"\n"
    + "  type        = string\n" + "}\n" + "\n" + "variable \"google_region\" {\n" + "  description = \"Google Cloud region\"\n"
    + "  type        = string\n" + "  default     = \"us-central1\"\n" + "}\n"
  const AzurermVariables := "\n" + "variable \"azure_location\" {\n" + "  description = \"Azure location\"\n"
    + "  type        = string\n" + "  default     = \"East US\"\n" + "}\n" + "\n" + "variable \"azure_subscription_id\" {\n"
    + "  description = \"Azure subscription ID\"\n" + "  type        = string\n" + "  sensitive   = true\n" + "}\n"
  const GithubVariables := "\n" + "variable \"gh_owner\" {\n" + "  description = \"GitHub owner (user or organization)\"\n"
    + "  type        = string\n" + "  default     = \"warike\"\n" + "}\n" + "\n" + "variable \"gh_token\" {\n"
    + "  description = \"GitHub token\"\n" + "  type        = string\n" + "  sensitive   = true\n" + "}\n"
  const VercelVariables := "\n" + "variable \"vercel_api_token\" {\n" + "  description = \"Vercel API Token\"\n"
    + "  type        = string\n" + "  sensitive   = true\n" + "}\n"
  const CloudflareVariables := "\n" + "variable \"cloudflare_api_token\" {\n" + "  description = \"Cloudflare API Token\"\n"
    + "  type        = string\n" + "  sensitive   = true\n" + "}\n"

  /** The `variable` blocks of a known name; nothing for an unknown one. */
  function VariableText(p: Provider): (text: string)
    ensures !Generator.IsKnown(p.Name) <==> text == ""
  {
    if p.Name == "aws" then AwsVariables
    else if p.Name == "google" then GoogleVariables
    else if p.Name == "azurerm" then AzurermVariables
    else if p.Name == "github" then GithubVariables
    else if p.Name == "vercel" then VercelVariables
    else if p.Name == "cloudflare" then CloudflareVariables
    else ""
  }

  /** The text `generateVariablesFile` writes to variables.tf. */
  function VariablesFileText(m: Model): (text: string)
    requires |m.Providers| <= |m.Selected|
    ensures ProjectVariable <= text
  {
    ProjectVariable + ConcatMap(VariableText, SelectedProviders(m))
  }

  /** `generateVariablesFile` without the write. */
  method BuildVariablesFile(m: Model) returns (text: string)
    requires |m.Providers| <= |m.Selected|
    ensures text == VariablesFileText(m)
  {
    text := AppendSelected(ProjectVariable, m.Providers, m.Selected, VariableText);
  }

  // ---------------------------------------------------------------- generateTfvarsFile

  const ProjectValue := "project_name = \"my_project\"\n"

  const AwsValues := "aws_region   = \"us-west-2\"\n" + "aws_profile  = \"default\"\n"
  const GoogleValues := "google_project_id = \"gcp-project-id-goes-here\"\n" + "google_region     = \"us-central1\"\n"
  const AzurermValues := "azure_location = \"East US\"\n" + "azure_subscription_id = \"azure-subscription-id-goes-here\"\n"
  const GithubValues := "gh_owner = \"warike\"\n" + "gh_token = \"your-github-token\"\n"
  const VercelValues := "vercel_api_token = \"your-vercel-token\"\n"
  const CloudflareValues := "cloudflare_api_token = \"your-cloudflare-token\"\n"

  /** The default values of a known name; nothing for an unknown one. */
  function ValuesLines(name: string): (text: string)
    ensures !Generator.IsKnown(name) <==> text == ""
  {
    if name == "aws" then AwsValues
    else if name == "google" then GoogleValues
    else if name == "azurerm" then AzurermValues
    else if name == "github" then GithubValues
    else if name == "vercel" then VercelValues
    else if name == "cloudflare" then CloudflareValues
    else ""
  }

  /** What the loop writes for a selected provider: a blank line, then its values. */
  function ValuesText(p: Provider): string
  {
    "\n" + ValuesLines(p.Name)
  }

  /** The text `generateTfvarsFile` writes to terraform.tfvars. */
  function TfvarsFileText(m: Model): (text: string)
    requires |m.Providers| <= |m.Selected|
    ensures ProjectValue <= text
  {
    ProjectValue + ConcatMap(ValuesText, SelectedProviders(m))
  }

  /** `generateTfvarsFile` without the write. */
  method BuildTfvarsFile(m: Model) returns (text: string)
    requires |m.Providers| <= |m.Selected|
    ensures text == TfvarsFileText(m)
  {
    text := AppendSelected(ProjectValue, m.Providers, m.Selected, ValuesText);
  }

  // ---------------------------------------------------------------- generateMainFile

  /** The text `generateMainFile` writes to main.tf: a comment line and a blank line. */
  const MainFileText := "// main.tf\n" + "\n"

  // ---------------------------------------------------------------- the "y" branch of Update

  /** The four writes, in the order the branch makes them, into the working directory. */
  function WritesOf(provider: string, variables: string, tfvars: string): (ws: seq<FsOp>)
    ensures |ws| == 4 && forall k :: 0 <= k < |ws| ==> ws[k].WriteFile?
    ensures ws[0].path == "provider.tf" && ws[1].path == "variables.tf"
    ensures ws[2].path == "terraform.tfvars" && ws[3].path == "main.tf"
    ensures ws[0].content == provider && ws[1].content == variables && ws[2].content == tfvars
    ensures ws[3].content == MainFileText
  {
    [ WriteFile("provider.tf", provider),
      WriteFile("variables.tf", variables),
      WriteFile("terraform.tfvars", tfvars),
      WriteFile("main.tf", MainFileText) ]
  }

  /** The writes of the "y" branch for a model. */
  function Writes(m: Model): seq<FsOp>
    requires |m.Providers| <= |m.Selected|
  {
    WritesOf(ProviderFileText(m), VariablesFileText(m), TfvarsFileText(m))
  }

  /** `fmt.Sprintf("Error generating <file>: %v", err)`; the file is named by its path. */
  function ErrorText(op: FsOp, cause: string): string
  {
    "Error generating " + (match op case WriteFile(path, _) => path case MkdirAll(dir) => dir) + ": " + cause
  }

  /** The error shown after one write: its own message when it fails, the previous one
      otherwise. */
  function Report(op: FsOp, fs: FsOracle, shown: string): string
  {
    if fs(op).Some? then ErrorText(op, fs(op).value) else shown
  }

  /** The error shown after a series of writes, each overwriting the message of the ones
      before it when it fails. */
  function ReportedError(ws: seq<FsOp>, fs: FsOracle, shown: string): (r: string)
    ensures r == shown || exists k :: 0 <= k < |ws| && fs(ws[k]).Some? && r == ErrorText(ws[k], fs(ws[k]).value)
  {
    if ws == [] then shown
    else Report(ws[|ws| - 1], fs, ReportedError(ws[..|ws| - 1], fs, shown))
  }

  /** When every write succeeds the previous error stays on screen. */
  lemma {:induction false} ReportedErrorKeeps(ws: seq<FsOp>, fs: FsOracle, shown: string)
    requires forall k :: 0 <= k < |ws| ==> fs(ws[k]).None?
    ensures ReportedError(ws, fs, shown) == shown
  {
    if ws != [] {
      ReportedErrorKeeps(ws[..|ws| - 1], fs, shown);
    }
  }

  /** Otherwise the message is the one of the last write that failed: later failures hide
      earlier ones. */
  lemma {:induction false} ReportedErrorIsLastFailure(ws: seq<FsOp>, fs: FsOracle, shown: string, k: nat)
    requires k < |ws| && fs(ws[k]).Some?
    requires forall j :: k < j < |ws| ==> fs(ws[j]).None?
    ensures ReportedError(ws, fs, shown) == ErrorText(ws[k], fs(ws[k]).value)
    decreases |ws|
  {
    if k < |ws| - 1 {
      ReportedErrorIsLastFailure(ws[..|ws| - 1], fs, shown, k);
    }
  }

  /** One write and its report, as each `generate*File` call and the `if err != nil` after it. */
  method WriteAndReport(ops: seq<FsOp>, shown: string, op: FsOp, fs: FsOracle, ghost start: string)
    returns (ops': seq<FsOp>, shown': string)
    requires shown == ReportedError(ops, fs, start)
    ensures ops' == ops + [op]
    ensures shown' == ReportedError(ops', fs, start)
  {
    ops' := ops + [op];
    shown' := shown;
    var err := fs(op);
    if err.Some? {
      shown' := ErrorText(op, err.value);
    }
    assert ops'[..|ops'| - 1] == ops;
  }

  /** The four `generate*File` calls of the "y" branch, given the texts they build: every
      write is attempted, whatever fails before it, and each failure replaces the error shown. */
  method WriteAll(provider: string, variables: string, tfvars: string, fs: FsOracle, shown: string)
    returns (ops: seq<FsOp>, shown': string)
    ensures ops == WritesOf(provider, variables, tfvars)
    ensures shown' == ReportedError(ops, fs, shown)
  {
    ops, shown' := [], shown;
    ops, shown' := WriteAndReport(ops, shown', WriteFile("provider.tf", provider), fs, shown);
    ops, shown' := WriteAndReport(ops, shown', WriteFile("variables.tf", variables), fs, shown);
    ops, shown' := WriteAndReport(ops, shown', WriteFile("terraform.tfvars", tfvars), fs, shown);
    ops, shown' := WriteAndReport(ops, shown', WriteFile("main.tf", MainFileText), fs, shown);
  }

  /** The "y" branch: build and write all four files and show the error of the last write
      that failed. */
  method GenerateAll(m: Model, fs: FsOracle) returns (ops: seq<FsOp>, shown: string)
    requires |m.Providers| <= |m.Selected|
    ensures ops == Writes(m)
    ensures shown == ReportedError(Writes(m), fs, m.Error)
  {
    var provider := BuildProviderFile(m);
    var variables := BuildVariablesFile(m);
    var tfvars := BuildTfvarsFile(m);
    ops, shown := WriteAll(provider, variables, tfvars, fs, m.Error);
  }

  // ---------------------------------------------------------------- Update

  /** Keys are acted on only while the list is shown. */
  predicate Interactive(m: Model)
  {
    !m.Loading && !m.FilesGenerated
  }

  predicate IsToggleKey(key: string) { key == "enter" || key == " " }
  predicate IsGenerateKey(key: string) { key == "y" || key == "Y" }

  /** The Bubble Tea transition function: the same key handling as the `ui` package, except
      that `y` writes all four files into the working directory. */
  function Update(m: Model, msg: Msg, fs: FsOracle): (r: Step)
    requires msg.KeyPress? && Interactive(m) && IsToggleKey(msg.key) ==> 0 <= m.Cursor < |m.Selected|
    requires msg.KeyPress? && Interactive(m) && IsGenerateKey(msg.key) ==> |m.Providers| <= |m.Selected|
    ensures r.cmd == Quit <==>
              msg.KeyPress? && (msg.key == "ctrl+c" || msg.key == "q" || (msg.key == "enter" && !Interactive(m)))
    ensures r.cmd == SpinnerTick <==> msg.SpinnerFrame?
    ensures msg.KeyPress? && !Interactive(m) ==> r.model == m
    ensures r.ops != [] <==> msg.KeyPress? && Interactive(m) && IsGenerateKey(msg.key)
    ensures r.model.FilesGenerated <==> m.FilesGenerated || r.ops != []
    ensures r.model.Loading ==> m.Loading
  {
    match msg
    case KeyPress(key) =>
      if m.Loading || m.FilesGenerated then
        Step(m, if key == "ctrl+c" || key == "q" || key == "enter" then Quit else NoCmd, [])
      else if key == "ctrl+c" || key == "q" then Step(m, Quit, [])
      else if key == "up" || key == "k" then
        Step(m.(Cursor := if m.Cursor > 0 then m.Cursor - 1 else m.Cursor), NoCmd, [])
      else if key == "down" || key == "j" then
        Step(m.(Cursor := if m.Cursor < |m.Providers| - 1 then m.Cursor + 1 else m.Cursor), NoCmd, [])
      else if IsToggleKey(key) then
        Step(m.(Selected := m.Selected[m.Cursor := !m.Selected[m.Cursor]]), NoCmd, [])
      else if IsGenerateKey(key) then
        var ws := Writes(m);
        Step(m.(FilesGenerated := true, Error := ReportedError(ws, fs, m.Error)), NoCmd, ws)
      else Step(m, NoCmd, [])
    case SpinnerFrame => Step(m, SpinnerTick, [])
    case VersionsFetched(ps, err) =>
      Step(m.(Loading := false, VersionsLoaded := true, Providers := ps,
              Error := if err.Some? then err.value else m.Error), NoCmd, [])
    case OtherMsg => Step(m, NoCmd, [])
  }

  /** The generate key attempts all four writes, even after one fails, and shows the error
      of the last that failed (the previous error when none does). */
  lemma UpdateWritesAllFiles(m: Model, msg: Msg, fs: FsOracle)
    requires msg.KeyPress? && Interactive(m) && IsGenerateKey(msg.key)
    requires |m.Providers| <= |m.Selected|
    ensures var r := Update(m, msg, fs);
      && r.ops == Writes(m) && r.model.FilesGenerated
      && r.model.Error == ReportedError(Writes(m), fs, m.Error)
      && r.model.Selected == m.Selected && r.model.Providers == m.Providers
  {
    assert msg.key != "ctrl+c" && msg.key != "q" && msg.key != "up" && msg.key != "k";
    assert msg.key != "down" && msg.key != "j" && !IsToggleKey(msg.key);
  }

  /** Only the toggle keys change the selection, and they flip exactly the flag under the
      cursor. */
  lemma UpdateToggles(m: Model, msg: Msg, fs: FsOracle)
    requires msg.KeyPress? && Interactive(m) && IsToggleKey(msg.key) ==> 0 <= m.Cursor < |m.Selected|
    requires msg.KeyPress? && Interactive(m) && IsGenerateKey(msg.key) ==> |m.Providers| <= |m.Selected|
    ensures var r := Update(m, msg, fs);
      && |r.model.Selected| == |m.Selected|
      && (r.model.Selected != m.Selected <==> msg.KeyPress? && Interactive(m) && IsToggleKey(msg.key))
      && (forall i :: 0 <= i < |m.Selected| && i != m.Cursor ==> r.model.Selected[i] == m.Selected[i])
      && (msg.KeyPress? && Interactive(m) && IsToggleKey(msg.key) ==>
            r.model.Selected[m.Cursor] == !m.Selected[m.Cursor])
  {
  }

  /** The cursor moves by at most one row per message, and only on the movement keys: up/k
      moves it up unless it is on the first row, down/j moves it down unless it is on the last. */
  lemma UpdateMovesCursor(m: Model, msg: Msg, fs: FsOracle)
    requires msg.KeyPress? && Interactive(m) && IsToggleKey(msg.key) ==> 0 <= m.Cursor < |m.Selected|
    requires msg.KeyPress? && Interactive(m) && IsGenerateKey(msg.key) ==> |m.Providers| <= |m.Selected|
    ensures var r := Update(m, msg, fs);
      && -1 <= r.model.Cursor - m.Cursor <= 1
      && (r.model.Cursor != m.Cursor ==>
            msg.KeyPress? && Interactive(m) && msg.key in {"up", "k", "down", "j"})
      && (msg.KeyPress? && Interactive(m) && (msg.key == "up" || msg.key == "k") ==>
            r.model.Cursor == if m.Cursor > 0 then m.Cursor - 1 else m.Cursor)
      && (msg.KeyPress? && Interactive(m) && (msg.key == "down" || msg.key == "j") ==>
            r.model.Cursor == if m.Cursor < |m.Providers| - 1 then m.Cursor + 1 else m.Cursor)
  {
  }

  /** The fetch result ends loading, installs the fetched providers and reports its error; no
      other message touches the provider list. */
  lemma UpdateInstallsVersions(m: Model, msg: Msg, fs: FsOracle)
    requires msg.KeyPress? && Interactive(m) && IsToggleKey(msg.key) ==> 0 <= m.Cursor < |m.Selected|
    requires msg.KeyPress? && Interactive(m) && IsGenerateKey(msg.key) ==> |m.Providers| <= |m.Selected|
    ensures var r := Update(m, msg, fs);
      && (msg.VersionsFetched? ==>
            r.model.Providers == msg.providers && !r.model.Loading && r.model.VersionsLoaded &&
            r.model.Error == (if msg.err.Some? then msg.err.value else m.Error))
      && (!msg.VersionsFetched? ==> r.model.Providers == m.Providers && r.model.Loading == m.Loading)
  {
  }

  /** Every message keeps the model's shape, provided a fetch result has one entry per provider. */
  lemma UpdateKeepsValid(m: Model, msg: Msg, fs: FsOracle)
    requires Valid(m) && (msg.VersionsFetched? ==> |msg.providers| == |m.Providers|)
    ensures Valid(Update(m, msg, fs).model)
  {
  }

  // ---------------------------------------------------------------- unknown names

  /** A selected provider the builders have no case for still costs one blank line in
      provider.tf and in terraform.tfvars, and adds nothing to `locals` or variables.tf. */
  lemma UnknownNameAddsBlankLines(pre: seq<Provider>, p: Provider, post: seq<Provider>)
    requires !Generator.IsKnown(p.Name)
    ensures ConcatMap(BlockText, pre + [p] + post) == ConcatMap(BlockText, pre) + "\n" + ConcatMap(BlockText, post)
    ensures ConcatMap(LocalText, pre + [p] + post) == ConcatMap(LocalText, pre + post)
    ensures ConcatMap(VariableText, pre + [p] + post) == ConcatMap(VariableText, pre + post)
    ensures ConcatMap(ValuesText, pre + [p] + post) == ConcatMap(ValuesText, pre) + "\n" + ConcatMap(ValuesText, post)
  {
    assert BlockText(p) == "\n" + "" == "\n";
    ConcatMapInsert(BlockText, pre, p, post, "\n");
    ConcatMapSkipEmpty(LocalText, pre, p, post);
    ConcatMapSkipEmpty(VariableText, pre, p, post);
    assert ValuesText(p) == "\n" + "" == "\n";
    ConcatMapInsert(ValuesText, pre, p, post, "\n");
  }

  /** The k-th selected provider's variables come after the `project_name` variable and the
      variables of the providers selected before it. */
  lemma VariablesInSelectionOrder(m: Model, k: nat)
    requires |m.Providers| <= |m.Selected| && k < |SelectedProviders(m)|
    ensures var sel := SelectedProviders(m);
      VariablesFileText(m) ==
        ProjectVariable + ConcatMap(VariableText, sel[..k]) + VariableText(sel[k]) + ConcatMap(VariableText, sel[k + 1..])
  {
    var sel := SelectedProviders(m);
    PieceAt(ProjectVariable, VariableText, sel, k);
  }

  /** The k-th selected provider's values come after `project_name` and the values of the
      providers selected before it. */
  lemma TfvarsInSelectionOrder(m: Model, k: nat)
    requires |m.Providers| <= |m.Selected| && k < |SelectedProviders(m)|
    ensures var sel := SelectedProviders(m);
      TfvarsFileText(m) ==
        ProjectValue + ConcatMap(ValuesText, sel[..k]) + ValuesText(sel[k]) + ConcatMap(ValuesText, sel[k + 1..])
  {
    var sel := SelectedProviders(m);
    PieceAt(ProjectValue, ValuesText, sel, k);
  }

  // ---------------------------------------------------------------- extractMajorMinor

  /** `\d` in Go's regexp syntax: an ASCII digit. */
  predicate IsDigit(c: char)
  {
    '0' <= c <= '9'
  }

  predicate AllDigits(s: string)
  {
    forall i :: 0 <= i < |s| ==> IsDigit(s[i])
  }

  /** s is digits, a dot at position a, digits, each run non-empty. */
  ghost predicate SplitsAt(s: string, a: int)
  {
    0 < a < |s| - 1 && s[a] == '.' && AllDigits(s[..a]) && AllDigits(s[a + 1..])
  }

  /** s matches `\d+\.\d+` as a whole. */
  ghost predicate IsMajorMinor(s: string)
  {
    exists a :: SplitsAt(s, a)
  }

  /** The end of the run of digits that starts at i. */
  function DigitRun(v: string, i: nat): (j: nat)
    requires i <= |v|
    ensures i <= j <= |v| && AllDigits(v[i..j])
    ensures j == |v| || !IsDigit(v[j])
    decreases |v| - i
  {
    if i < |v| && IsDigit(v[i]) then DigitRun(v, i + 1) else i
  }

  /** `extractMajorMinor(version)`: the leading `major.minor` of a version, or the version
      itself when it does not start with one. */
  function ExtractMajorMinor(v: string): (r: string)
    ensures r <= v
  {
    var a := DigitRun(v, 0);
    if 0 < a < |v| && v[a] == '.' then
      var b := DigitRun(v, a + 1);
      if b > a + 1 then v[..b] else v
    else v
  }

  /** A split of a prefix of v is a split of v's own characters. */
  lemma PrefixSplit(v: string, k: nat, d: int)
    requires k <= |v| && SplitsAt(v[..k], d)
    ensures 0 < d < k - 1 && v[d] == '.' && AllDigits(v[..d]) && AllDigits(v[d + 1..k])
  {
    assert v[..k][..d] == v[..d];
    assert v[..k][d + 1..] == v[d + 1..k];
  }

  /** Digits, a dot at a and digits up to b make v[..b] a match. */
  lemma PrefixMatches(v: string, a: nat, b: nat)
    requires 0 < a < b - 1 && b <= |v| && v[a] == '.'
    requires AllDigits(v[..a]) && AllDigits(v[a + 1..b])
    ensures SplitsAt(v[..b], a) && IsMajorMinor(v[..b])
  {
    assert v[..b][..a] == v[..a];
    assert v[..b][a + 1..] == v[a + 1..b];
    assert SplitsAt(v[..b], a);
  }

  /** Any prefix of the version that matches `\d+\.\d+` is no longer than the result, and
      the result matches. */
  lemma ExtractMajorMinorCoversMatch(v: string, k: nat)
    requires 0 < k <= |v| && IsMajorMinor(v[..k])
    ensures k <= |ExtractMajorMinor(v)| && IsMajorMinor(ExtractMajorMinor(v))
  {
    var d :| SplitsAt(v[..k], d);
    PrefixSplit(v, k, d);
    DigitRunFrom(v, 0, d);
    var b := DigitRun(v, d + 1);
    DigitRunFrom(v, d + 1, k);
    PrefixMatches(v, d, b);
  }

  /** The result is the longest prefix of the version that matches `\d+\.\d+`, when there
      is one; otherwise the version comes back unchanged. */
  lemma ExtractMajorMinorIsLongestMatch(v: string)
    ensures forall k :: 0 < k <= |v| && IsMajorMinor(v[..k]) ==>
              k <= |ExtractMajorMinor(v)| && IsMajorMinor(ExtractMajorMinor(v))
    ensures (forall k :: 0 < k <= |v| ==> !IsMajorMinor(v[..k])) ==> ExtractMajorMinor(v) == v
  {
    forall k | 0 < k <= |v| && IsMajorMinor(v[..k])
      ensures k <= |ExtractMajorMinor(v)| && IsMajorMinor(ExtractMajorMinor(v))
    {
      ExtractMajorMinorCoversMatch(v, k);
    }
    var a := DigitRun(v, 0);
    if 0 < a < |v| && v[a] == '.' {
      var b := DigitRun(v, a + 1);
      if b > a + 1 {
        PrefixMatches(v, a, b);
      }
    }
  }

  /** A run of digits from i to k that ends at a non-digit, or goes on past k, reaches at
      least k; it ends exactly at k when v[k] is not a digit. */
  lemma {:induction false} DigitRunFrom(v: string, i: nat, k: nat)
    requires i <= k <= |v| && AllDigits(v[i..k])
    ensures k <= DigitRun(v, i)
    ensures k < |v| && !IsDigit(v[k]) ==> DigitRun(v, i) == k
    decreases k - i
  {
    if i < k {
      assert v[i..k][0] == v[i];
      forall t | i + 1 <= t < k
        ensures IsDigit(v[t])
      {
        assert v[i..k][t - i] == v[t];
      }
      DigitRunFrom(v, i + 1, k);
    }
  }

  /** Extracting twice changes nothing more. */
  lemma ExtractMajorMinorIdempotent(v: string)
    ensures ExtractMajorMinor(ExtractMajorMinor(v)) == ExtractMajorMinor(v)
  {
    var r := ExtractMajorMinor(v);
    var a := DigitRun(v, 0);
    if r != v {
      var b := DigitRun(v, a + 1);
      assert r == v[..b];
      DigitRunFrom(r, 0, a);
      assert r[a] == '.';
      assert r[a + 1..b] == v[a + 1..b];
      DigitRunFrom(r, a + 1, b);
      assert DigitRun(r, 0) == a;
    }
  }

  /** A registry version such as 5.30.0 becomes 5.30. */
  lemma ExtractMajorMinorExample()
    ensures ExtractMajorMinor("5.30.0") == "5.30"
    ensures ExtractMajorMinor("v5.30.0") == "v5.30.0"
  {
    assert DigitRun("5.30.0", 0) == 1 by { DigitRunFrom("5.30.0", 0, 1); }
    assert DigitRun("5.30.0", 2) == 4 by { DigitRunFrom("5.30.0", 2, 4); }
    assert DigitRun("v5.30.0", 0) == 0;
  }
}
