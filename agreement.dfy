/** The two programs' provider.tf side by side: the `strings.Builder` code of main.go and the
    template of internal/generator/generator.go write the same text for the same selection of
    known providers. Each builder piece ends with the newline the template piece starts with,
    so the proof moves one "\n" from the front of every template piece to the end of the
    matching builder piece. */
module LegacyAgreement {
  import opened Text
  import opened Selection
  import opened Legacy
  import Generator

  /** The configuration the `generator` package receives for a provider. */
  function ConfigOf(p: Provider): Generator.ProviderConfig
  {
    Generator.ProviderConfig(p.Name, p.Source, p.LatestVersion)
  }

  function Configs(ps: seq<Provider>): (cs: seq<Generator.ProviderConfig>)
    ensures |cs| == |ps| && forall i :: 0 <= i < |ps| ==> cs[i] == ConfigOf(ps[i])
  {
    seq(|ps|, i requires 0 <= i < |ps| => ConfigOf(ps[i]))
  }

  // ---------------------------------------------------------------- regrouping, on abstract texts

  /** A `required_providers` entry written as "\n" + lines regroups to its lines, each
      followed by "\n", after a leading "\n". */
  lemma EntryNewlineMoves(nl: string, a: string, n: string, b1: string, b2: string, s: string,
                     c1: string, c2: string, v: string, d: string)
    ensures (nl + a) + n + (b1 + nl + b2) + s + (c1 + nl + c2) + v + (c1 + nl + d) + nl ==
            nl + (a + n + b1 + nl + b2 + s + c1 + nl + c2 + v + c1 + nl + d + nl)
  {
  }

  /** A one-line `provider` block: the blank line before it in the builder equals the blank
      line after it in the template. */
  lemma OneLineBlockNewlineMoves(nl: string, h: string, o: string, n: string, b: string, l1: string, rb: string)
    requires h == o + n + b
    ensures nl + (h + nl + l1 + nl + rb + nl) + nl == nl + (o + n + b + (nl + l1) + (nl + rb + nl + nl))
  {
  }

  /** The same for a two-line `provider` block. */
  lemma TwoLineBlockNewlineMoves(nl: string, h: string, o: string, n: string, b: string, l1: string, l2: string, rb: string)
    requires h == o + n + b
    ensures nl + (h + nl + l1 + nl + l2 + nl + rb + nl) + nl ==
            nl + (o + n + b + (nl + l1 + nl + l2) + (nl + rb + nl + nl))
  {
  }

  /** The same for the five-line `aws` block. */
  lemma FiveLineBlockNewlineMoves(nl: string, h: string, o: string, n: string, b: string,
               l1: string, l2: string, l3: string, l4: string, l5: string, rb: string)
    requires h == o + n + b
    ensures nl + (h + nl + l1 + nl + l2 + nl + l3 + nl + l4 + nl + l5 + nl + rb + nl) + nl ==
            nl + (o + n + b + (nl + l1 + nl + l2 + nl + l3 + nl + l4 + nl + l5) + (nl + rb + nl + nl))
  {
  }

  /** One `locals` line: its newline moves from the front to the end. */
  lemma OneLocalNewlineMoves(nl: string, l1: string)
    ensures nl + l1 + nl == nl + (l1 + nl)
  {
  }

  /** Two `locals` lines: the same. */
  lemma TwoLocalsNewlineMoves(nl: string, l1: string, l2: string)
    ensures nl + l1 + nl + l2 + nl == nl + (l1 + nl + l2 + nl)
  {
  }

  // ---------------------------------------------------------------- one provider

  /** A builder entry is the template entry with its newline moved from the front to the end. */
  lemma EntryShift(p: Provider)
    ensures Generator.RequiredEntry(ConfigOf(p)) + "\n" == "\n" + EntryText(p)
  {
    EntryNewlineMoves("\n", "    ", p.Name, " = {", "      source  = \"", p.Source,
                 "\"", "      version = \"", p.LatestVersion, "    }");
  }

  /** The `provider "<name>" {` line both programs write. */
  lemma HeaderLines()
    ensures "provider \"aws\" {" == Generator.BlockOpen + "aws" + Generator.BlockBrace
    ensures "provider \"google\" {" == Generator.BlockOpen + "google" + Generator.BlockBrace
    ensures "provider \"azurerm\" {" == Generator.BlockOpen + "azurerm" + Generator.BlockBrace
    ensures "provider \"github\" {" == Generator.BlockOpen + "github" + Generator.BlockBrace
    ensures "provider \"vercel\" {" == Generator.BlockOpen + "vercel" + Generator.BlockBrace
    ensures "provider \"cloudflare\" {" == Generator.BlockOpen + "cloudflare" + Generator.BlockBrace
  {
  }

  /** A known provider's builder block is its template block with the blank line moved from
      the end to the front. */
  lemma BlockShift(p: Provider)
    requires Generator.IsKnown(p.Name)
    ensures BlockText(p) + "\n" == "\n" + Generator.ProviderBlock(ConfigOf(p))
  {
    HeaderLines();
    var o, b := Generator.BlockOpen, Generator.BlockBrace;
    if p.Name == "aws" {
      FiveLineBlockNewlineMoves("\n", "provider \"aws\" {", o, p.Name, b, "  region  = local.aws_region", "  profile = local.aws_profile",
             "  default_tags {", "   tags = local.tags", "  }", "}");
    } else if p.Name == "google" {
      TwoLineBlockNewlineMoves("\n", "provider \"google\" {", o, p.Name, b, "  project = local.gcp_project_id", "  region  = local.gcp_region", "}");
    } else if p.Name == "azurerm" {
      TwoLineBlockNewlineMoves("\n", "provider \"azurerm\" {", o, p.Name, b, "  subscription_id = local.azure_subscription_id", "  features {}", "}");
    } else if p.Name == "github" {
      TwoLineBlockNewlineMoves("\n", "provider \"github\" {", o, p.Name, b, "  owner = local.gh_owner", "  token = local.gh_token", "}");
    } else if p.Name == "vercel" {
      OneLineBlockNewlineMoves("\n", "provider \"vercel\" {", o, p.Name, b, "  api_token = local.vercel_api_token", "}");
    } else {
      OneLineBlockNewlineMoves("\n", "provider \"cloudflare\" {", o, p.Name, b, "  api_token = local.cloudflare_api_token", "}");
    }
  }

  /** A provider's builder `locals` lines are its template lines with the newline moved from
      the front of each line to its end. */
  lemma LocalShift(p: Provider)
    ensures Generator.LocalLines(ConfigOf(p)) + "\n" == "\n" + LocalText(p)
  {
    if p.Name == "aws" {
      TwoLocalsNewlineMoves("\n", "  aws_region  = var.aws_region", "  aws_profile = var.aws_profile");
    } else if p.Name == "google" {
      TwoLocalsNewlineMoves("\n", "  gcp_project_id = var.google_project_id", "  gcp_region     = var.google_region");
    } else if p.Name == "azurerm" {
      TwoLocalsNewlineMoves("\n", "  azure_location            = var.azure_location", "  azure_subscription_id     = var.azure_subscription_id");
    } else if p.Name == "github" {
      TwoLocalsNewlineMoves("\n", "  gh_owner           = var.gh_owner", "  gh_token           = var.gh_token");
    } else if p.Name == "vercel" {
      OneLocalNewlineMoves("\n", "  vercel_api_token = var.vercel_api_token");
    } else if p.Name == "cloudflare" {
      OneLocalNewlineMoves("\n", "  cloudflare_api_token = var.cloudflare_api_token");
    }
  }

  // ---------------------------------------------------------------- the whole file

  /** How the fixed pieces of the two texts line up. */
  lemma FixedPiecesAlign()
    ensures TerraformOpen + RequiredOpen == Generator.ProviderHead + "\n"
    ensures Generator.RequiredClose == "\n" + RequiredClose + TerraformClose + "\n"
    ensures LocalsOpen == "\n" + Generator.LocalsHead + "\n"
    ensures Generator.LocalsTail == "\n" + TagsText
  {
    assert TagsText == Generator.TagsBlock;
  }

  /** The regrouping behind ProviderFileMatchesGenerator, on abstract texts. */
  lemma ProviderFileRegroups(ph: string, re: string, rcg: string, pb: string, lh: string, ll: string, lt: string,
                head: string, et: string, rc: string, tc: string, bt: string, lo: string, lc: string, tags: string)
    requires head == ph + "\n" && re + "\n" == "\n" + et && rcg == "\n" + rc + tc + "\n"
    requires bt + "\n" == "\n" + pb && lo == "\n" + lh + "\n" && ll + "\n" == "\n" + lc
    requires lt == "\n" + tags
    ensures head + et + rc + tc + bt + lo + lc + tags == (ph + re + rcg) + pb + (lh + ll + lt)
  {
    calc {
      (ph + re + rcg) + pb + (lh + ll + lt);
      ph + (re + "\n") + rc + tc + ("\n" + pb) + lh + (ll + "\n") + tags;
      ph + ("\n" + et) + rc + tc + (bt + "\n") + lh + ("\n" + lc) + tags;
      head + et + rc + tc + bt + lo + lc + tags;
    }
  }

  /** The selected providers all have known names when every selected catalog entry does. */
  lemma {:induction false} ChosenKnown(ps: seq<Provider>, sel: seq<bool>)
    requires |ps| <= |sel|
    requires forall i :: 0 <= i < |ps| && sel[i] ==> Generator.IsKnown(ps[i].Name)
    ensures forall k :: 0 <= k < |Chosen(ps, sel)| ==> Generator.IsKnown(Chosen(ps, sel)[k].Name)
  {
    if ps != [] {
      ChosenKnown(ps[..|ps| - 1], sel);
    }
  }

  /** The builder's `required_providers` entries are the template's with the newline moved. */
  lemma EntriesShift(sel: seq<Provider>)
    ensures ConcatMap(Generator.RequiredEntry, Configs(sel)) + "\n" == "\n" + ConcatMap(EntryText, sel)
  {
    var cs := Configs(sel);
    forall i | 0 <= i < |sel|
      ensures Generator.RequiredEntry(cs[i]) + "\n" == "\n" + EntryText(sel[i])
    {
      EntryShift(sel[i]);
    }
    ShiftSeparator(Generator.RequiredEntry, cs, EntryText, sel, "\n");
  }

  /** BlockShift for every provider at once. */
  lemma BlockShiftAll()
    ensures forall p: Provider :: Generator.IsKnown(p.Name) ==>
              BlockText(p) + "\n" == "\n" + Generator.ProviderBlock(ConfigOf(p))
  {
    forall p: Provider | Generator.IsKnown(p.Name)
      ensures BlockText(p) + "\n" == "\n" + Generator.ProviderBlock(ConfigOf(p))
    {
      BlockShift(p);
    }
  }

  /** ShiftSeparator for a selection of known providers, given the shift for every known one. */
  lemma ShiftKnown(f: Provider -> string, g: Generator.ProviderConfig -> string, sel: seq<Provider>)
    requires forall p: Provider :: Generator.IsKnown(p.Name) ==> f(p) + "\n" == "\n" + g(ConfigOf(p))
    requires forall k :: 0 <= k < |sel| ==> Generator.IsKnown(sel[k].Name)
    ensures ConcatMap(f, sel) + "\n" == "\n" + ConcatMap(g, Configs(sel))
  {
    var cs := Configs(sel);
    forall i | 0 <= i < |sel|
      ensures f(sel[i]) + "\n" == "\n" + g(cs[i])
    {
    }
    ShiftSeparator(f, sel, g, cs, "\n");
  }

  /** The builder's `provider` blocks are the template's with the blank line moved. */
  lemma BlocksShift(sel: seq<Provider>)
    requires forall k :: 0 <= k < |sel| ==> Generator.IsKnown(sel[k].Name)
    ensures ConcatMap(BlockText, sel) + "\n" == "\n" + ConcatMap(Generator.ProviderBlock, Configs(sel))
  {
    BlockShiftAll();
    ShiftKnown(BlockText, Generator.ProviderBlock, sel);
  }

  /** The builder's `locals` lines are the template's with the newline moved. */
  lemma LocalsShift(sel: seq<Provider>)
    ensures ConcatMap(Generator.LocalLines, Configs(sel)) + "\n" == "\n" + ConcatMap(LocalText, sel)
  {
    var cs := Configs(sel);
    forall i | 0 <= i < |sel|
      ensures Generator.LocalLines(cs[i]) + "\n" == "\n" + LocalText(sel[i])
    {
      LocalShift(sel[i]);
    }
    ShiftSeparator(Generator.LocalLines, cs, LocalText, sel, "\n");
  }

  /** When every selected provider is one of the six known names, the hand-built provider.tf
      is exactly the text the `generator` package renders for the same providers, whatever
      the project name. */
  lemma ProviderFileMatchesGenerator(m: Model, projectName: string)
    requires |m.Providers| <= |m.Selected|
    requires forall i :: 0 <= i < |m.Providers| && m.Selected[i] ==> Generator.IsKnown(m.Providers[i].Name)
    ensures ProviderFileText(m) ==
              Generator.GenerateProviderFile(Generator.GeneratorData(projectName, Configs(SelectedProviders(m))))
  {
    var sel := SelectedProviders(m);
    var cs := Configs(sel);
    ChosenKnown(m.Providers, m.Selected);
    EntriesShift(sel);
    BlocksShift(sel);
    LocalsShift(sel);
    FixedPiecesAlign();
    ProviderFileRegroups(Generator.ProviderHead, ConcatMap(Generator.RequiredEntry, cs), Generator.RequiredClose,
            ConcatMap(Generator.ProviderBlock, cs), Generator.LocalsHead, ConcatMap(Generator.LocalLines, cs),
            Generator.LocalsTail, TerraformOpen + RequiredOpen, ConcatMap(EntryText, sel),
            RequiredClose, TerraformClose, ConcatMap(BlockText, sel), LocalsOpen, ConcatMap(LocalText, sel), TagsText);
  }
}
