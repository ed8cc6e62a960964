# terraform-files, modelled in Dafny

`terraform-files` is a terminal provider picker built on Bubble Tea. It shows six Terraform
providers (aws, google, azurerm, github, vercel, cloudflare) and fetches the latest version of
each from the registry at the same time. The user ticks providers, then asks for the files.
The program writes a starter Terraform project: `provider.tf`, `variables.tf`,
`terraform.tfvars` and `main.tf`.

The repository has two copies of the picker, and both are modelled:

- **`internal/ui` + `internal/generator`**: the current program, modules `Ui` and `Generator`.
  - The `g` key runs `generateFiles`.
  - `generateFiles` creates the target directory unless it is empty or `.`, and takes the
    project name from the directory's last element.
  - It renders the four files from `text/template` templates. The templates are written out
    here as string concatenation, with every `{{- … }}` trim resolved.
  - It writes the files in a fixed order and stops at the first failure.
- **`main.go`**: the older single-file program, module `Legacy`.
  - The `y` key builds the files with `strings.Builder` and writes them into the working
    directory.
  - It attempts all four writes whatever fails, so the error shown is the one from the last
    write that failed.
  - It also holds `extractMajorMinor`.

Shared pieces:

| module | what it holds |
|---|---|
| `Text` | `ConcatMap`: the text a range loop or `{{ range }}` emits |
| `Selection` | `Chosen`: the providers a `for i, p := range … if selected[i]` loop visits |
| `Fs` | file-system operations seen through an oracle, and `filepath.Base`/`Join` |
| `Resolution` | the concurrent version fetch as a fold over a completion order |
| `LegacyAgreement` | proves both programs write the same `provider.tf` for the same known providers |

**How effects are modelled.**

- **Registry client.** A `Fetcher` oracle (source ⇒ version or error text).
- **File system.** An `FsOracle` (operation ⇒ error text, or none).
- **Goroutines and the mutex.** A completion order: a sequence that lists each provider index
  exactly once, in the order the goroutines took the lock. `fetchAllVersions` is a method that
  takes the goroutines one at a time in that order. It is proved to produce the same list for
  every order. Its error is the first failure in that order.
- **`Update`.** A function from a model and a message to a `Step`: the new model, the command
  and the operations attempted. Go uses a value receiver, and the runtime keeps only the
  returned model.

`Update` requires the cursor to be inside the selection array for a toggle. It also requires
one flag per provider for a generation. Go would panic with an index out of range otherwise.
`Valid` states this shape, and `UpdateKeepsValid` proves that every message keeps it.

## Model

| member | source | states |
|---|---|---|
| Ui.Catalog | internal/ui/model.go:37-44 | six providers, all with names the templates know, distinct names and sources, no version yet |
| Ui.InitialModel | internal/ui/model.go:36-58 | the start state: the catalog, nothing selected, cursor on row 0, loading, no error, the given target directory |
| Ui.Refresh | internal/ui/model.go:80-91 | a successful fetch marks the provider latest with the fetched version; a failed one leaves it unchanged; name and source never change |
| Ui.Resolved | internal/ui/model.go:73-92 | one refreshed provider per input provider, position by position |
| Ui.FetchAllVersions | internal/ui/model.go:69-98 | the list is every provider refreshed, whatever the completion order; the error is the first failure in that order |
| Ui.FetchErrorIffSomeUnmarked | internal/ui/model.go:69-98 | from unmarked providers, the message carries no error exactly when every provider ends up marked latest |
| Ui.Configs | internal/ui/model.go:205-209 | one generator config per provider, with its name, source and latest version |
| Ui.ConfigsSnoc | internal/ui/model.go:203-211 | appending a provider appends its config (the `append` step of the selection loop) |
| Ui.ProjectNameFor | internal/ui/model.go:195-201 | the project name is `my_project` when the target is empty or `.`, and `filepath.Base` of the target otherwise; it is never empty and is "/" or a single path element |
| Ui.ProjectNameIsLastElement | internal/ui/model.go:199-201 | a target `parent/leaf` names the project `leaf` |
| Ui.FileName | internal/ui/model.go:213-221 | each output file has a non-empty name without a slash |
| Ui.Render | internal/ui/model.go:213-221 | terraform.tfvars starts with the `project_name` line for the data's name, and main.tf is the fixed comment |
| Ui.FilePath | internal/ui/model.go:229-232 | with no target directory the path is the bare name; otherwise it is the directory, a slash, then the name |
| Ui.WritesWith | internal/ui/model.go:213-237 | four writes, one per output file |
| Ui.Writes | internal/ui/model.go:213-237 | the model's planned writes are four file writes |
| Ui.GenerationOfSucceedsIff | internal/ui/model.go:187-239 | generation returns no error exactly when every planned operation (directory, then four writes) succeeds, and then it attempted them all |
| Ui.GenerationOfStopsAtFailure | internal/ui/model.go:187-239 | a failed generation attempted a prefix of the plan that ends at the first failure; the error is that operation's, and a directory error is wrapped with the directory name |
| Ui.GenerationOf | internal/ui/model.go:187-239 | the operations attempted are a prefix of the plan, and at least one is attempted whenever the plan is not empty |
| Ui.GenerationOfFollowsPlan | internal/ui/model.go:187-239 | `generateFiles` follows its plan (the directory step, then the writes) and stops at the first failure: it attempts a prefix of the plan, every operation but the last succeeded, it returns no error exactly when it completed the plan without failure, and otherwise the last operation's error, wrapped with the directory name for the directory step |
| Ui.WritesLandInTarget | internal/ui/model.go:223-237 | the k-th write goes to the k-th file's name inside the target (or the working directory) and holds that file's rendering of the model's data |
| Ui.GenDataListsSelection | internal/ui/model.go:203-211 | the renderers receive exactly the selected providers, in catalog order |
| Ui.GenerateFiles | internal/ui/model.go:187-239 | the imperative `generateFiles` (mkdir, name, selection loop, write loop) produces exactly the outcome of `Generation` |
| Ui.WriteOutputs | internal/ui/model.go:223-237 | the write loop attempts the writes in order and returns at the first error, as `Attempt` specifies |
| Ui.Update | internal/ui/model.go:100-146 | quit exactly on ctrl+c/q, or on enter while not interactive; a tick command exactly on a spinner frame; keys ignored while loading or after generation; file operations exactly on g/G while interactive; generation is sticky; loading never restarts; the target directory never changes |
| Ui.UpdateToggles | internal/ui/model.go:121-122 | only enter/space change the selection, and they flip exactly the flag under the cursor |
| Ui.UpdateMovesCursor | internal/ui/model.go:113-120 | the cursor moves at most one row, and only on up/k/down/j; up/k moves it up one row unless it is on row 0, down/j moves it down one row unless it is on the last provider |
| Ui.UpdateInstallsVersions | internal/ui/model.go:136-142 | the fetch result ends loading, installs the fetched providers and reports its error; no other message touches the list |
| Ui.UpdateGenerates | internal/ui/model.go:123-128 | g/G runs the generation and shows its error (or keeps the old one); the error changes only through a fetch result or a generation |
| Ui.UpdateKeepsValid | internal/ui/model.go:100-146 | every message keeps one flag per provider and the cursor on a row |
| Ui.GenerationAttempts | internal/ui/model.go:187-239 | a generation always attempts at least one operation |
| Ui.Run | internal/ui/model.go:100-146 | one step per message |
| Ui.NothingAfterGeneration | internal/ui/model.go:103-108 | once the files are generated, no later message touches the file system |
| Ui.AtMostOneGeneration | internal/ui/model.go:123-128 | in any session the files are generated at most once |
| Fs.Join | internal/ui/model.go:231 | the joined path is the directory, a slash, then the name |
| Fs.LastSegment | internal/ui/model.go:200 | the last path element has no slash, is a suffix of the path, and is either the whole path or preceded by a slash |
| Fs.TrimTrailingSlashes | internal/ui/model.go:200 | a prefix of the path that does not end in a slash; everything dropped is a slash |
| Fs.Base | internal/ui/model.go:200 | `filepath.Base` gives "." for the empty path and "/" for a path of slashes only; otherwise it is the last element, which ends where only trailing slashes follow and starts at the path's start or after a slash; never empty, "/" or one path element |
| Fs.BaseOfJoin | internal/ui/model.go:200-231 | `Base(Join(parent, leaf)) == leaf` for a plain leaf name |
| Fs.Attempt | internal/ui/model.go:223-237 | operations run in order until the first failure: a prefix of the plan, all before the last succeeded, and the error is the last one's |
| Fs.AttemptSucceeds | internal/ui/model.go:223-238 | when every operation succeeds, all are attempted and no error is returned |
| Fs.AttemptStopsAt | internal/ui/model.go:234-236 | when the k-th operation is the first to fail, exactly the first k+1 are attempted and its error is returned |
| Fs.AttemptSucceeded | internal/ui/model.go:223-238 | a successful run met no failure |
| Resolution.FirstErrorIsEarliest | internal/ui/model.go:84-88 | the error slot stays empty exactly when no fetch fails; otherwise it holds the wrapped error of the earliest failure in completion order |
| Resolution.FirstErrorSnoc | internal/ui/model.go:82-89 | one more goroutine through the mutex keeps an earlier error or records its own failure |
| Resolution.NoErrorIffAllSucceed | internal/ui/model.go:69-98 | whatever the completion order, there is no error exactly when every fetch succeeds |
| Resolution.SingleFailureNamed | internal/ui/model.go:84-87 | with exactly one failing fetch, every completion order reports that provider's error |
| Resolution.AllRefreshed | internal/ui/model.go:73-92 | the result has one refreshed entry per provider, in place |
| Resolution.RefreshOne | internal/ui/model.go:90-91 | refreshing slot i in place equals adding i to the set of refreshed slots |
| Resolution.FetchAll | internal/ui/model.go:69-98 | the mutex-guarded loop over a completion order yields the refreshed list (independent of the order) and the first failure in that order |
| Selection.SelectedIndices | internal/ui/model.go:203-204 | the selected positions, strictly increasing, all below n and all flagged, with none missing |
| Selection.Chosen | internal/ui/model.go:203-211 | the selection loop never yields more providers than it visits |
| Selection.ChosenStep | internal/ui/model.go:203-211 | one iteration of the selection loop appends the provider exactly when its flag is set |
| Selection.ChosenInOrder | internal/ui/model.go:203-211 | the k-th chosen provider is the one at the k-th selected position |
| Selection.ChosenNone | internal/ui/model.go:203-211 | with nothing selected, nothing is chosen |
| Selection.ChosenTextStep | main.go:262-269 | one iteration of a builder loop appends the provider's text exactly when it is selected |
| Generator.ProviderBody | internal/generator/generator.go:33-52 | the `if eq .Name` chain yields nothing exactly for an unknown name |
| Generator.LocalLines | internal/generator/generator.go:60-76 | a provider adds `locals` lines exactly when its name is known |
| Generator.VariableBlocks | internal/generator/generator.go:95-154 | a provider adds variables exactly when its name is known |
| Generator.TfvarsLines | internal/generator/generator.go:160-176 | a provider adds values exactly when its name is known |
| Generator.GenerateProviderFile | internal/generator/generator.go:20-87 | provider.tf starts with the `required_providers` section of the providers and ends with their `locals` section |
| Generator.GenerateMainFile | internal/generator/generator.go:180-181 | main.tf is a single `//` comment line ending in a newline |
| Generator.GenerateVariablesFile | internal/generator/generator.go:89-156 | variables.tf starts with the `project_name` variable and ends with a newline |
| Generator.GenerateTfvarsFile | internal/generator/generator.go:158-178 | terraform.tfvars starts with `project_name = "<name>"` and ends with a newline |
| Generator.RequiredEntryAt | internal/generator/generator.go:20-29 | one `required_providers` entry per provider, in input order |
| Generator.ProviderBlockAt | internal/generator/generator.go:31-55 | every provider, known or not, gets a `provider` block, in input order |
| Generator.LocalLinesAt | internal/generator/generator.go:57-78 | each provider's `locals` lines sit after `project_name` and before the `tags` map, in input order |
| Generator.VariableBlocksAt | internal/generator/generator.go:89-156 | each provider's variables come after `project_name`, in input order |
| Generator.UnknownNameAddsOnlyEmptyBlock | internal/generator/generator.go:31-177 | an unknown name yields an empty `provider "<name>" {}` block and changes neither `locals`, variables.tf nor terraform.tfvars |
| Generator.EmptyProviderList | internal/generator/generator.go:20-181 | with no providers all four files are still rendered, with an empty `required_providers` block |
| Generator.OnlyTfvarsUsesProjectName | internal/generator/generator.go:158 | the project name reaches only terraform.tfvars, and different names give different tfvars |
| Legacy.Catalog | main.go:54-61 | the same six providers, with no version in use and none fetched |
| Legacy.InitialModel | main.go:53-73 | the start state: the catalog, nothing selected, cursor on row 0, loading, no error |
| Legacy.Refresh | main.go:212-224 | a successful fetch marks the provider latest; a failed one leaves it unchanged; `Version` is never touched |
| Legacy.FetchAllVersions | main.go:201-231 | every provider refreshed whatever the completion order; the error is the first failure in that order |
| Legacy.AppendSelected | main.go:262-269 | a builder loop appends the text of each selected provider, in catalog order |
| Legacy.ProviderFileText | main.go:257-351 | provider.tf starts with `terraform {` and `required_providers {`, and ends with the `tags` map and the closing of `locals` |
| Legacy.VariablesFileText | main.go:353-437 | variables.tf starts with the `project_name` variable |
| Legacy.TfvarsFileText | main.go:450-480 | terraform.tfvars starts with `project_name = "my_project"` |
| Legacy.ProviderConfigText | main.go:277-309 | the `switch p.Name` writes a block exactly for a known name |
| Legacy.LocalText | main.go:318-335 | the `switch p.Name` writes `locals` lines exactly for a known name |
| Legacy.BuildProviderFile | main.go:257-351 | the three builder passes produce the entries, the blocks and the locals of the selected providers around the fixed text |
| Legacy.VariableText | main.go:363-432 | the `switch p.Name` writes variables exactly for a known name |
| Legacy.BuildVariablesFile | main.go:353-437 | variables.tf is the `project_name` variable followed by the variables of the selected providers |
| Legacy.ValuesLines | main.go:457-476 | the `switch p.Name` writes values exactly for a known name |
| Legacy.BuildTfvarsFile | main.go:450-480 | terraform.tfvars is `project_name = "my_project"` followed by a blank line and the values of each selected provider |
| Legacy.WritesOf | main.go:104-123 | the writes go to provider.tf, variables.tf, terraform.tfvars, main.tf in that order, with main.tf holding its fixed comment |
| Legacy.ReportedError | main.go:104-125 | the error shown is the previous one or the `Error generating …` text of a write that failed |
| Legacy.ReportedErrorKeeps | main.go:104-125 | when every write succeeds, the previous error stays shown |
| Legacy.ReportedErrorIsLastFailure | main.go:104-125 | otherwise the error shown is `Error generating <file>: <cause>` of the last write that failed |
| Legacy.WriteAndReport | main.go:106-109 | one write followed by its `if err != nil` |
| Legacy.WriteAll | main.go:104-125 | all four writes are attempted in order, whatever fails, and the error shown is the last failure's |
| Legacy.GenerateAll | main.go:104-125 | the `y` branch writes the four built files and shows the error of the last failing write |
| Legacy.Update | main.go:81-145 | quit exactly on ctrl+c/q, or on enter while loading or after generation; keys ignored while loading or after generation; file writes exactly on y/Y while interactive; generation is sticky; loading never restarts |
| Legacy.UpdateWritesAllFiles | main.go:104-125 | `y` attempts all four writes, marks the files generated, shows the last failure's error, and leaves the selection and providers alone |
| Legacy.UpdateToggles | main.go:102-103 | only enter/space change the selection, and they flip exactly the flag under the cursor |
| Legacy.UpdateMovesCursor | main.go:94-101 | the cursor moves at most one row, and only on up/k/down/j; up/k moves it up unless it is on row 0, down/j moves it down unless it is on the last provider |
| Legacy.UpdateInstallsVersions | main.go:133-139 | the fetch result ends loading, marks versions loaded, installs the fetched providers and shows its error (or keeps the old one); no other message touches the list or loading |
| Legacy.UpdateKeepsValid | main.go:81-145 | every message keeps one flag per provider and the cursor on a row |
| Legacy.UnknownNameAddsBlankLines | main.go:272-334 | a selected provider with an unknown name adds one blank line to provider.tf and to terraform.tfvars, and nothing to `locals` or variables.tf |
| Legacy.VariablesInSelectionOrder | main.go:359-434 | each selected provider's variables follow those of the providers selected before it |
| Legacy.TfvarsInSelectionOrder | main.go:455-478 | each selected provider's values follow those of the providers selected before it |
| Legacy.DigitRun | main.go:484 | the end of a maximal run of ASCII digits |
| Legacy.ExtractMajorMinor | main.go:483-490 | the result is a prefix of the version |
| Legacy.ExtractMajorMinorCoversMatch | main.go:484-488 | any prefix matching `\d+\.\d+` is no longer than the result, and the result matches |
| Legacy.ExtractMajorMinorIsLongestMatch | main.go:483-490 | the result is the longest prefix matching `^(\d+\.\d+)`; with no match the version comes back unchanged |
| Legacy.DigitRunFrom | main.go:484 | a digit run extends past any all-digit stretch and ends exactly at the first non-digit |
| Legacy.ExtractMajorMinorIdempotent | main.go:483-490 | extracting twice gives the same as extracting once |
| Legacy.ExtractMajorMinorExample | main.go:483-490 | `5.30.0` gives `5.30`; `v5.30.0` comes back unchanged |
| LegacyAgreement.Configs | internal/ui/model.go:205-209 | one generator config per legacy provider |
| LegacyAgreement.EntriesShift | main.go:262-269 | the builder's entries equal the template's, with the line break moved from the front of each entry to its end |
| LegacyAgreement.BlocksShift | main.go:272-310 | the builder's `provider` blocks equal the template's, with the blank line moved |
| LegacyAgreement.LocalsShift | main.go:315-336 | the builder's `locals` lines equal the template's, with the line break moved |
| LegacyAgreement.FixedPiecesAlign | main.go:259-348 | the fixed text of both programs lines up, with the `tags` map identical |
| LegacyAgreement.ChosenKnown | main.go:262-269 | if every selected catalog entry is known, every chosen provider is known |
| LegacyAgreement.ProviderFileMatchesGenerator | main.go:257-351 | when every selected provider is known, the hand-built provider.tf is exactly the template's rendering of the same providers, whatever the project name |

## Left out

- Bubble Tea's runtime, `Init`, `View`, the lipgloss styles and the spinner's own state are
  not modelled. A spinner tick is modelled as a command that asks for the next tick.
- The registry client (HTTP, JSON decoding, `getLatestProviderVersion`,
  `internal/providers`) is replaced by the `Fetcher` oracle.
- Goroutines, the `WaitGroup` and the mutex are not modelled. What remains is a completion
  order, and every order that lists each index once is allowed.
- `os.MkdirAll` and `os.WriteFile` are replaced by the `FsOracle`. File modes are not
  modelled, and neither is a partial write.
- `cmd/tfinit` (flags and the non-interactive path) is not part of this model.
- The updater and the provider-file parser are not part of this model.
- Ui.Render: template parse and execution errors are not modelled. The fixed templates
  always parse, and the data holds only strings.
- Fs.Join: `filepath.Join`'s lexical cleaning (`..`, doubled slashes) is not modelled. The
  join is the directory, a slash, then the name.
- Bytes are modelled as strings. The templates and builders only copy their inputs.
- The in-place write `m.Selected[m.Cursor] = …` also shows through older copies of the model,
  because a Go slice is shared. The model returns a fresh sequence. The runtime keeps only the
  newest model, so nothing observable differs.
- Ui.Run: the runtime quits after `tea.Quit`. Run keeps applying messages, and its contract
  only states its length.
- Legacy.Provider: `Version` is never set by the program; it is carried unchanged.
- Legacy.Msg: `tea.WindowSizeMsg` is handled like any other message, with no effect.
- Legacy.ExtractMajorMinor: nothing in the program calls it. Only its regular expression is
  modelled.
- LegacyAgreement.ProviderFileMatchesGenerator: the agreement is proved for provider.tf only.
  For variables.tf and terraform.tfvars the two programs differ in blank lines:
  - The builder starts each provider's part with a blank line.
  - The template puts one newline at the end.
  - In terraform.tfvars an unknown name adds a blank line in the builder, which writes it
    before the `switch`, and nothing in the template. In variables.tf an unknown name adds
    nothing in either program, because the builder writes its blank line inside each case.
- LegacyAgreement.ProviderFileMatchesGenerator: with an unknown name the two provider.tf
  files differ. The template writes an empty `provider` block; the builder writes a blank line.
