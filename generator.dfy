/** The four `text/template` renderers of internal/generator/generator.go, written out as
    concatenation. Each `{{- ... }}` / `{{ ... -}}` trim is resolved by hand: a `{{- range }}` or
    `{{- end }}` eats the newline before it, so every repeated fragment below begins with its own
    "\n" and ends without one. */
module Generator {
  import opened Text

  datatype ProviderConfig = ProviderConfig(Name: string, Source: string, LatestVersion: string)

  datatype GeneratorData = GeneratorData(ProjectName: string, Providers: seq<ProviderConfig>)

  /** The six names the templates have an `eq .Name` branch for. */
  predicate IsKnown(name: string)
  {
    name == "aws" || name == "google" || name == "azurerm" ||
    name == "github" || name == "vercel" || name == "cloudflare"
  }

  // ---------------------------------------------------------------- provider.tf

  const ProviderHead := "terraform {" + "\n" + "  required_providers {"

  const EntryOpen := "\n" + "    "
  const EntrySource := " = {" + "\n" + "      source  = \""
  const EntryVersion := "\"" + "\n" + "      version = \""
  const EntryClose := "\"" + "\n" + "    }"

  /** One `required_providers` entry: `Name = { source = ..., version = ... }`. */
  function RequiredEntry(p: ProviderConfig): string
  {
    EntryOpen + p.Name + EntrySource + p.Source + EntryVersion + p.LatestVersion + EntryClose
  }

  const RequiredClose := "\n" + "  }" + "\n" + "}" + "\n" + "\n"

  const AwsProviderBody := "\n" + "  region  = local.aws_region" + "\n" + "  profile = local.aws_profile" + "\n" + "  default_tags {" + "\n" + "   tags = local.tags" + "\n" + "  }"
  const GoogleProviderBody := "\n" + "  project = local.gcp_project_id" + "\n" + "  region  = local.gcp_region"
  const AzurermProviderBody := "\n" + "  subscription_id = local.azure_subscription_id" + "\n" + "  features {}"
  const GithubProviderBody := "\n" + "  owner = local.gh_owner" + "\n" + "  token = local.gh_token"
  const VercelProviderBody := "\n" + "  api_token = local.vercel_api_token"
  const CloudflareProviderBody := "\n" + "  api_token = local.cloudflare_api_token"

  /** The configuration lines of a `provider` block; empty for an unknown name. */
  function ProviderBody(name: string): (body: string)
    ensures !IsKnown(name) <==> body == ""
  {
    if name == "aws" then AwsProviderBody
    else if name == "google" then GoogleProviderBody
    else if name == "azurerm" then AzurermProviderBody
    else if name == "github" then GithubProviderBody
    else if name == "vercel" then VercelProviderBody
    else if name == "cloudflare" then CloudflareProviderBody
    else ""
  }

  const BlockOpen := "provider \""
  const BlockBrace := "\" {"
  const BlockClose := "\n" + "}" + "\n" + "\n"

  /** `provider "Name" { ... }` followed by a blank line, for every provider, known or not. */
  function ProviderBlock(p: ProviderConfig): string
  {
    BlockOpen + p.Name + BlockBrace + ProviderBody(p.Name) + BlockClose
  }

  const LocalsHead := "locals {" + "\n" + "  project_name = var.project_name"

  const AwsLocals := "\n" + "  aws_region  = var.aws_region" + "\n" + "  aws_profile = var.aws_profile"
  const GoogleLocals := "\n" + "  gcp_project_id = var.google_project_id" + "\n" + "  gcp_region     = var.google_region"
  const AzurermLocals := "\n" + "  azure_location            = var.azure_location" + "\n" + "  azure_subscription_id     = var.azure_subscription_id"
  const GithubLocals := "\n" + "  gh_owner           = var.gh_owner" + "\n" + "  gh_token           = var.gh_token"
  const VercelLocals := "\n" + "  vercel_api_token = var.vercel_api_token"
  const CloudflareLocals := "\n" + "  cloudflare_api_token = var.cloudflare_api_token"

  /** The `locals` lines a known provider adds; nothing for an unknown name. */
  function LocalLines(p: ProviderConfig): (lines: string)
    ensures !IsKnown(p.Name) <==> lines == ""
  {
    if p.Name == "aws" then AwsLocals
    else if p.Name == "google" then GoogleLocals
    else if p.Name == "azurerm" then AzurermLocals
    else if p.Name == "github" then GithubLocals
    else if p.Name == "vercel" then VercelLocals
    else if p.Name == "cloudflare" then CloudflareLocals
    else ""
  }

  /** The fixed `tags` map that closes the `locals` block. */
  const TagsBlock :=
    "\n" + "  tags = {" + "\n" + "    project     = local.project_name" + "\n" + "    environment = \"dev\"" + "\n"
    + "    owner       = \"warike\"" + "\n" + "    cost-center  = \"development\"" + "\n" + "    terraform   = \"true\"" + "\n"
    + "  }" + "\n" + "}" + "\n"

  const LocalsTail := "\n" + TagsBlock

  /** The `terraform { required_providers { ... } }` block. */
  function RequiredSection(ps: seq<ProviderConfig>): string
  {
    ProviderHead + ConcatMap(RequiredEntry, ps) + RequiredClose
  }

  /** The `locals { ... }` block. */
  function LocalsSection(ps: seq<ProviderConfig>): string
  {
    LocalsHead + ConcatMap(LocalLines, ps) + LocalsTail
  }

  /** provider.tf: the `required_providers` block, one `provider` block per provider, then
      `locals` with the fixed `tags` map. */
  function GenerateProviderFile(d: GeneratorData): (r: string)
    ensures RequiredSection(d.Providers) <= r
    ensures var locals := LocalsSection(d.Providers); |locals| <= |r| && r[|r| - |locals|..] == locals
  {
    var required, blocks, locals := RequiredSection(d.Providers), ConcatMap(ProviderBlock, d.Providers),
      LocalsSection(d.Providers);
    Framed(required, blocks, locals);
    required + blocks + locals
  }

  // ---------------------------------------------------------------- variables.tf

  const VariablesHead :=
    "variable \"project_name\" {" + "\n  description = \"Name of the project\"" + "\n  type        = string" + "\n  default     = \"my_project\"" + "\n}" + "\n"

  const AwsVariables :=
    "\nvariable \"aws_region\" {" + "\n  description = \"AWS region\"" + "\n  type        = string" + "\n  default     = \"us-west-2\"" + "\n}" + "\n"
    + "\nvariable \"aws_profile\" {" + "\n  description = \"AWS profile name\"" + "\n  type        = string" + "\n  default     = \"default\"" + "\n}"
  const GoogleVariables :=
    "\nvariable \"google_project_id\" {" + "\n  description = \"Google Cloud project ID\"" + "\n  type        = string" + "\n}" + "\n"
    + "\nvariable \"google_region\" {" + "\n  description = \"Google Cloud region\"" + "\n  type        = string" + "\n  default     = \"us-central1\"" + "\n}"
  const AzurermVariables :=
    "\nvariable \"azure_location\" {" + "\n  description = \"Azure location\"" + "\n  type        = string" + "\n  default     = \"East US\"" + "\n}" + "\n"
    + "\nvariable \"azure_subscription_id\" {" + "\n  description = \"Azure subscription ID\"" + "\n  type        = string" + "\n  sensitive   = true" + "\n}"
  const GithubVariables :=
    "\nvariable \"gh_owner\" {" + "\n  description = \"GitHub owner (user or organization)\"" + "\n  type        = string" + "\n  default     = \"warike\"" + "\n}" + "\n"
    + "\nvariable \"gh_token\" {" + "\n  description = \"GitHub token\"" + "\n  type        = string" + "\n  sensitive   = true" + "\n}"
  const VercelVariables :=
    "\nvariable \"vercel_api_token\" {" + "\n  description = \"Vercel API Token\"" + "\n  type        = string" + "\n  sensitive   = true" + "\n}"
  const CloudflareVariables :=
    "\nvariable \"cloudflare_api_token\" {" + "\n  description = \"Cloudflare API Token\"" + "\n  type        = string" + "\n  sensitive   = true" + "\n}"

  /** The `variable` blocks a known provider adds; nothing for an unknown name. */
  function VariableBlocks(p: ProviderConfig): (blocks: string)
    ensures !IsKnown(p.Name) <==> blocks == ""
  {
    if p.Name == "aws" then AwsVariables
    else if p.Name == "google" then GoogleVariables
    else if p.Name == "azurerm" then AzurermVariables
    else if p.Name == "github" then GithubVariables
    else if p.Name == "vercel" then VercelVariables
    else if p.Name == "cloudflare" then CloudflareVariables
    else ""
  }

  /** variables.tf: the `project_name` variable, then each known provider's variables. */
  function GenerateVariablesFile(d: GeneratorData): (r: string)
    ensures VariablesHead <= r
    ensures r[|r| - 1] == '\n'
  {
    VariablesHead + ConcatMap(VariableBlocks, d.Providers) + "\n"
  }

  // ---------------------------------------------------------------- terraform.tfvars

  const AwsTfvars := "\naws_region   = \"us-west-2\"" + "\naws_profile  = \"default\""
  const GoogleTfvars := "\ngoogle_project_id = \"gcp-project-id-goes-here\"" + "\ngoogle_region     = \"us-central1\""
  const AzurermTfvars := "\nazure_location = \"East US\"" + "\nazure_subscription_id = \"azure-subscription-id-goes-here\""
  const GithubTfvars := "\ngh_owner = \"warike\"" + "\ngh_token = \"your-github-token\""
  const VercelTfvars := "\nvercel_api_token = \"your-vercel-token\""
  const CloudflareTfvars := "\ncloudflare_api_token = \"your-cloudflare-token\""

  /** The default values a known provider adds; nothing for an unknown name. */
  function TfvarsLines(p: ProviderConfig): (lines: string)
    ensures !IsKnown(p.Name) <==> lines == ""
  {
    if p.Name == "aws" then AwsTfvars
    else if p.Name == "google" then GoogleTfvars
    else if p.Name == "azurerm" then AzurermTfvars
    else if p.Name == "github" then GithubTfvars
    else if p.Name == "vercel" then VercelTfvars
    else if p.Name == "cloudflare" then CloudflareTfvars
    else ""
  }

  const TfvarsOpen := "project_name = \""
  const TfvarsClose := "\"\n"

  /** terraform.tfvars: `project_name = "<ProjectName>"`, then each known provider's values. */
  function GenerateTfvarsFile(d: GeneratorData): (r: string)
    ensures TfvarsOpen + d.ProjectName + TfvarsClose <= r
    ensures r[|r| - 1] == '\n'
  {
    TfvarsOpen + d.ProjectName + TfvarsClose + ConcatMap(TfvarsLines, d.Providers) + "\n"
  }

  // ---------------------------------------------------------------- main.tf

  const MainText := "// main.tf\n"

  /** main.tf: a fixed one-line comment, whatever the data. */
  function GenerateMainFile(d: GeneratorData): (r: string)
    ensures |r| > 2 && r[..2] == "//" && r[|r| - 1] == '\n'
    ensures forall i :: 0 <= i < |r| - 1 ==> r[i] != '\n'
  {
    MainText
  }

  // ---------------------------------------------------------------- properties

  /** The k-th provider's `required_providers` entry stands between the entries of the
      providers before it and those after it: one entry per provider, in input order. */
  lemma RequiredEntryAt(ps: seq<ProviderConfig>, k: nat)
    requires k < |ps|
    ensures RequiredSection(ps) ==
              ProviderHead + ConcatMap(RequiredEntry, ps[..k]) + RequiredEntry(ps[k])
              + ConcatMap(RequiredEntry, ps[k + 1..]) + RequiredClose
  {
    PieceBetween(ProviderHead, RequiredEntry, ps, RequiredClose, k);
  }

  /** Every provider, known or not, gets its `provider` block, between the blocks of the
      providers before it and those after it. */
  lemma ProviderBlockAt(d: GeneratorData, k: nat)
    requires k < |d.Providers|
    ensures GenerateProviderFile(d) ==
              RequiredSection(d.Providers) + ConcatMap(ProviderBlock, d.Providers[..k])
              + ProviderBlock(d.Providers[k])
              + ConcatMap(ProviderBlock, d.Providers[k + 1..]) + LocalsSection(d.Providers)
  {
    PieceBetween(RequiredSection(d.Providers), ProviderBlock, d.Providers, LocalsSection(d.Providers), k);
  }

  /** The k-th provider's `locals` lines come after `project_name` and the lines of the
      providers before it, and before the fixed `tags` map. */
  lemma LocalLinesAt(ps: seq<ProviderConfig>, k: nat)
    requires k < |ps|
    ensures LocalsSection(ps) ==
              LocalsHead + ConcatMap(LocalLines, ps[..k]) + LocalLines(ps[k])
              + ConcatMap(LocalLines, ps[k + 1..]) + LocalsTail
  {
    PieceBetween(LocalsHead, LocalLines, ps, LocalsTail, k);
  }

  /** The k-th provider's variables come after the `project_name` variable and the variables of
      the providers before it. */
  lemma VariableBlocksAt(d: GeneratorData, k: nat)
    requires k < |d.Providers|
    ensures GenerateVariablesFile(d) ==
              VariablesHead + ConcatMap(VariableBlocks, d.Providers[..k]) + VariableBlocks(d.Providers[k])
              + ConcatMap(VariableBlocks, d.Providers[k + 1..]) + "\n"
  {
    PieceBetween(VariablesHead, VariableBlocks, d.Providers, "\n", k);
  }

  /** An unknown provider name contributes an empty `provider` block and nothing else. */
  lemma UnknownNameAddsOnlyEmptyBlock(name: string, pre: seq<ProviderConfig>, p: ProviderConfig, post: seq<ProviderConfig>)
    requires !IsKnown(p.Name)
    ensures ProviderBlock(p) == BlockOpen + p.Name + BlockBrace + BlockClose
    ensures LocalsSection(pre + [p] + post) == LocalsSection(pre + post)
    ensures GenerateVariablesFile(GeneratorData(name, pre + [p] + post)) == GenerateVariablesFile(GeneratorData(name, pre + post))
    ensures GenerateTfvarsFile(GeneratorData(name, pre + [p] + post)) == GenerateTfvarsFile(GeneratorData(name, pre + post))
  {
    ConcatMapSkipEmpty(LocalLines, pre, p, post);
    ConcatMapSkipEmpty(VariableBlocks, pre, p, post);
    ConcatMapSkipEmpty(TfvarsLines, pre, p, post);
  }

  /** With no providers all four files are still produced; the declarations have an empty
      `required_providers` block. */
  lemma EmptyProviderList(name: string)
    ensures GenerateProviderFile(GeneratorData(name, [])) ==
              ProviderHead + RequiredClose + LocalsHead + LocalsTail
    ensures GenerateVariablesFile(GeneratorData(name, [])) == VariablesHead + "\n"
    ensures GenerateTfvarsFile(GeneratorData(name, [])) == "project_name = \"" + name + "\"\n\n"
    ensures GenerateMainFile(GeneratorData(name, [])) == MainText
  {
    AppendEmpty(ProviderHead);
    AppendEmpty(ProviderHead + RequiredClose);
    AppendEmpty(LocalsHead);
    Assoc(ProviderHead + RequiredClose, LocalsHead, LocalsTail);
    AppendEmpty(VariablesHead);
    AppendEmpty(TfvarsOpen + name + TfvarsClose);
  }

  /** The project name only reaches terraform.tfvars. */
  lemma OnlyTfvarsUsesProjectName(d: GeneratorData, e: GeneratorData)
    requires d.Providers == e.Providers
    ensures GenerateProviderFile(d) == GenerateProviderFile(e)
    ensures GenerateVariablesFile(d) == GenerateVariablesFile(e)
    ensures GenerateMainFile(d) == GenerateMainFile(e)
    ensures GenerateTfvarsFile(d) == GenerateTfvarsFile(e) <==> d.ProjectName == e.ProjectName
  {
    MiddleDetermined(TfvarsOpen, d.ProjectName, e.ProjectName, TfvarsClose, ConcatMap(TfvarsLines, d.Providers), "\n");
  }
}
