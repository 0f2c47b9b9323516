# aggregate_port_options in Dafny

A Dafny model of the core of `aggregate_port_options`. This FreeBSD tool
looks at every installed package and collects the port options it was built
with. For each option it works out whether the packages left it at the port's
default, enabled it everywhere, disabled it everywhere, or disagree. It then
prints a human-readable report or a `make.conf` fragment that would rebuild
the same choices.

The model has three parts, and each follows the corresponding Python file:

- **Package records** (`package_processing.dfy`, module `PackageProcessing`)
  model `iterate_packages`. The `pkg` queries and `make -V OPTIONS_DEFAULT`
  become fields of a `Host` value, each either the lines a command prints or
  the error it fails with. The generator loop is `IteratePackages`, proved
  equal to `Collected(host)`. Every line first goes through
  `line.split(maxsplit=1)`. If that raises `ValueError`, or a `pkg` query
  fails, the result is `Err` for the whole run, because the entry point
  materialises the generator with `list(...)`. A failing `make` falls back
  to the options that are on. `DOCS`, `NLS`, `EXAMPLES` and `IPV6` are
  forced into the defaults (`AddAlwaysDefault`).
- **Aggregation** (`option_processing.dfy`, module `OptionProcessing`)
  models `iterate_options`.
  - The first pass files every package under the options it declares (on or
    off) and under the options the port makes default (declared or "bad").
    The `defaultdict` of `_OptionInfoBase` objects is a map from option
    name to an `OptionTally` value, reassigned by two loops per package
    (`FileStates`, `FileDefaults`).
  - The second pass (`ClassifyAll`) walks the names in sorted order and
    classifies each option. `IterateOptions` is proved equal to
    `Aggregated(packages)`.
  - The tally is also defined independently, straight from the package list
    (`ReferenceTally`). The partition, ordering and order-independence
    facts are proved against that definition.
- **Rendering** (`report.dfy`, module `Report`) models
  `_format_package_list`, `_format_package_lists`, `print_options_report`
  and `print_make_conf`.
  - Printing is appending a line to the output sequence of a method.
  - Each method is proved equal to a function that states the whole output:
    `ReportLines` for the report and `MakeConf` for the fragment.
  - Lemmas cover the verbosity gating, the drift warnings, the framing
    comments, and the `.if` conditionals of mixed options.

Supporting modules:
- `StringOrder` holds Python's code-point order on `str` and `sorted()` of a
  set of strings (`SortedElems`).
- `Text` holds `str.split()` (`Words`), `split(maxsplit=1)` (`SplitFirst`)
  and `sep.join` (`Join`), with whitespace as Python's `str.isspace`.
- `Wrappers` holds `Option` and `Result`.

For each option, overridden-on, overridden-off and left-on together make up
on ∪ default, not on ∪ (default − off): option_processing.py line 87
computes overridden-off as default − on, so a package that has an option
in its defaults and turned it off is both off and overridden off.
`OptionProcessing.OverridePartition` states the partition that holds, and
`OptionProcessing.SslScenario` shows a two-package case where
on ∪ (default − off) is a different set.

## Model

| member | source | states |
|---|---|---|
| StringOrder.SortedElems | aggregate_port_options/report.py:27 | `sorted()` of a set of names lists each element exactly once, in strictly ascending code-point order |
| StringOrder.SortedElemsUnique | aggregate_port_options/option_processing.py:76 | any strictly ascending listing of a set's elements is the sorted listing, so the walk order over option names is determined |
| Text.Words | aggregate_port_options/package_processing.py:68 | every piece `split()` returns is a non-empty run of non-whitespace characters |
| Text.WordsOfJoin | aggregate_port_options/package_processing.py:68 | `split()` undoes joining words with single spaces |
| Text.SplitFirst | aggregate_port_options/package_processing.py:40 | when `split(maxsplit=1)` yields two values, the key is a word and the value is non-empty and starts with a non-space character |
| Text.SplitFirstWords | aggregate_port_options/package_processing.py:40 | unpacking fails exactly when the line has fewer than two words; otherwise the key is the first word and the value holds the remaining words |
| Text.SplitFirstOfJoin | aggregate_port_options/package_processing.py:47 | a key, a run of whitespace and a value that starts with a non-space character split back into the same key and value |
| Text.JoinIsEmpty | aggregate_port_options/report.py:42 | with a non-empty separator, a join is empty exactly when it joins nothing or one empty part |
| PackageProcessing.AddAlwaysDefault | aggregate_port_options/package_processing.py:73-76 | the forced-defaults loop adds to the defaults each of `DOCS`, `NLS`, `EXAMPLES`, `IPV6` that the package declares, and nothing else |
| PackageProcessing.CollectOne | aggregate_port_options/package_processing.py:39-84 | one pass of the generator loop: the error, the skip or the record that `Collect` defines for the line |
| PackageProcessing.IteratePackages | aggregate_port_options/package_processing.py:36-84 | the loop over the package list produces exactly `Collected(host)`: the records of the lines in order, or the first error |
| PackageProcessing.FlavorEnvMatchesRecord | aggregate_port_options/package_processing.py:65 | `make` runs with `{FLAVOR: v}` exactly when the annotations have `flavor` = `v`, and with an empty environment otherwise; this matches the record's `flavor` |
| PackageProcessing.ParsePairsFails | aggregate_port_options/package_processing.py:44-50 | the dict comprehension succeeds exactly when every line splits in two; otherwise the error names the first line that does not |
| PackageProcessing.ParsePairsKeys | aggregate_port_options/package_processing.py:44-50 | the parsed keys are exactly the first words of the lines |
| PackageProcessing.ParsePairsLast | aggregate_port_options/package_processing.py:44-50 | each key maps to the value on the last line with that key, so a later duplicate overwrites an earlier one |
| PackageProcessing.RecordOptions | aggregate_port_options/package_processing.py:39-55 | a yielded record's name and origin come from its package-list line; its options are non-empty, one per key of the `pkg` output, and on exactly when the last value for the key is `on` |
| PackageProcessing.OptionlessSkipped | aggregate_port_options/package_processing.py:54-55 | a package whose options query prints no lines yields no record |
| PackageProcessing.RecordDefaults | aggregate_port_options/package_processing.py:67-76 | the defaults are the words `make` printed for the origin and flavor environment, or the options that are on when `make` failed, plus the forced options the package declares; nothing else |
| PackageProcessing.CollectAllAppend | aggregate_port_options/package_processing.py:39 | records come out in package-list order: those of earlier lines before those of later ones, and an error in an earlier line ends the run |
| PackageProcessing.CollectedRecords | aggregate_port_options/package_processing.py:36-84 | when collection succeeds, the package list was read, and every record declares an option and is the record of one of its lines |
| OptionProcessing.Classify | aggregate_port_options/option_processing.py:76-90 | the status chain: unchanged iff on = default; otherwise always enabled iff off is empty; otherwise always disabled iff on is empty; otherwise mixed. Exactly one applies, the tally sets are copied, and an unchanged option has no overrides |
| OptionProcessing.OverridePartition | aggregate_port_options/option_processing.py:86-90 | overridden-on and left-on split on; overridden-off and left-on split default; when on and off are disjoint and cover default, overridden-off and left-off split off |
| OptionProcessing.FileStates | aggregate_port_options/option_processing.py:64-68 | the first inner loop files the package as on or off under every option it declares |
| OptionProcessing.FileDefaults | aggregate_port_options/option_processing.py:70-74 | the second inner loop files the package as default or bad default under every option the port makes default |
| OptionProcessing.CountPackage | aggregate_port_options/option_processing.py:64-74 | the two inner loops together add one package to the tally |
| OptionProcessing.ClassifyAll | aggregate_port_options/option_processing.py:76-92 | the second pass classifies every tallied option, in sorted name order |
| OptionProcessing.IterateOptions | aggregate_port_options/option_processing.py:60-92 | both passes over the package list produce `Aggregated(packages)` |
| OptionProcessing.AccumulatedTally | aggregate_port_options/option_processing.py:61-74 | the first pass tallies exactly the options some package declares or defaults; each set of the tally holds exactly the names of the packages that play that role for the option |
| OptionProcessing.AccumulatedOrderIndependent | aggregate_port_options/option_processing.py:63-74 | the tally depends only on which records occur, not on their order or repetition |
| OptionProcessing.AggregatedOrderIndependent | aggregate_port_options/option_processing.py:60-92 | the whole output depends only on the multiset of package records |
| OptionProcessing.TallyMembership | aggregate_port_options/option_processing.py:63-74 | with unique package names, a package is in on, off, default or bad default exactly when it declares the option on, declares it off, defaults and declares it, or defaults it without declaring it |
| OptionProcessing.TallyPartition | aggregate_port_options/option_processing.py:63-74 | with unique names, on and off are disjoint and together are the declaring packages; default lies within them; bad default is disjoint from them and from default |
| OptionProcessing.AccumulatedKeys | aggregate_port_options/option_processing.py:61-74 | the tallied options are exactly those mentioned by some package |
| OptionProcessing.ClassifiedShape | aggregate_port_options/option_processing.py:76-92 | the second pass yields one entry per tallied option, names strictly ascending, each classified from its own tally |
| OptionProcessing.AggregatedNames | aggregate_port_options/option_processing.py:60-92 | the output has exactly one entry per mentioned option, names strictly ascending, each classified from the reference tally of its option |
| OptionProcessing.AggregatedPartition | aggregate_port_options/option_processing.py:70-90 | with unique names, every output entry satisfies all the partition facts: on/off disjoint and covering the declaring packages, default within on ∪ off and disjoint from bad default, and the three override splits |
| OptionProcessing.DriftOnlyIsUnchanged | aggregate_port_options/option_processing.py:70-84 | an option that only appears as a bad default has no on and no default packages, so it is unchanged, with its bad default non-empty |
| OptionProcessing.SingleOptionAggregated | aggregate_port_options/option_processing.py:76-92 | when the packages mention a single option, the output is that option, classified from its tally |
| OptionProcessing.SslScenario | aggregate_port_options/option_processing.py:60-92 | A with SSL on and B with SSL off, both defaulting it: SSL is mixed, B overrode it off and A left it on; the three derived sets are not on ∪ (default − off) |
| OptionProcessing.FooScenario | aggregate_port_options/option_processing.py:60-92 | C with FOO on and no recipe default: FOO is enabled everywhere and C overrode it on |
| Report.FormatPackageListEmpty | aggregate_port_options/report.py:26-27 | the list prints as the empty string exactly when there are no names or the only name is empty |
| Report.FormatPackageListSorted | aggregate_port_options/report.py:26-27 | the formatted list is any ascending listing of the names, joined by `, ` |
| Report.LabelledPartsMeaning | aggregate_port_options/report.py:30-41 | each labelled part is present exactly when its family is wanted and its list prints as something |
| Report.PackageListPartsMeaning | aggregate_port_options/report.py:30-41 | "enabled manually", "enabled by default", "disabled manually" and "disabled by default" each appear exactly when their family is wanted and their set holds a non-empty name |
| Report.LabelledPartsOrder | aggregate_port_options/report.py:31-41 | at most four parts, and no enabled part follows a disabled one |
| Report.BuildParts | aggregate_port_options/report.py:31-41 | testing each family in turn and appending its non-empty list builds the labelled parts in their fixed order |
| Report.FormatPackageLists | aggregate_port_options/report.py:30-42 | the labelled lists, joined with `; `, are `PackageListsText` |
| Report.PrintGroup | aggregate_port_options/report.py:66-68 | prints a group as `Group` defines it: the title and the indented list only when the set is non-empty; `MixedGroupsMeaning` states what this gives for the four groups |
| Report.PrintMixedGroups | aggregate_port_options/report.py:66-80 | prints the groups of a mixed option as `MixedGroups`, whose presence, adjacency and order `MixedGroupsMeaning` proves |
| Report.SectionsLines | aggregate_port_options/report.py:66-80 | every line of a run of optional titled sections is one of their titles or bodies |
| Report.SectionsTitles | aggregate_port_options/report.py:66-80 | with distinct titles and no body reading as a title, a title is printed exactly when its section is present |
| Report.SectionsBodies | aggregate_port_options/report.py:66-80 | under the same conditions, each printed title is directly followed by its section's body |
| Report.SectionsOrder | aggregate_port_options/report.py:66-80 | under the same conditions, printed titles keep their given order |
| Report.MixedGroupsAreSections | aggregate_port_options/report.py:66-80 | the four `if` blocks under a mixed option are four optional sections: title, then the indented package list, present when the set is non-empty |
| Report.MixedTitlesApart | aggregate_port_options/report.py:67-79 | the four group titles differ from each other and from every indented package line |
| Report.MixedGroupsMeaning | aggregate_port_options/report.py:66-80 | under a mixed option, a group's title is printed exactly when the group has packages, the next line lists those packages indented by four spaces, the groups come in the order overridden to ON, overridden to OFF, left ON, left OFF, and nothing else is printed |
| Report.MixedGroupTitles | aggregate_port_options/report.py:66-80 | the same, for one group at a time, in terms of its package set |
| Report.PrintStatus | aggregate_port_options/report.py:53-80 | the status lines printed for each of the four statuses at the given verbosity |
| Report.PrintOptionReport | aggregate_port_options/report.py:49-80 | one option's lines: the drift warning, if any, then its status lines |
| Report.PrintOptionsReport | aggregate_port_options/report.py:45-80 | the report loop prints exactly `ReportLines`: each option's lines, in order |
| Report.DriftReported | aggregate_port_options/report.py:49-51 | an option's report starts with the drift warning exactly when it has bad-default packages, and the next line lists them |
| Report.StatusHeadlineIsNotDrift | aggregate_port_options/report.py:53-65 | no status headline can be mistaken for the drift warning |
| Report.VerbosityOnlyAppends | aggregate_port_options/report.py:53-80 | raising the verbosity only appends lines to an option's report, and a mixed option prints the same at every level |
| Report.StatusLineCount | aggregate_port_options/report.py:53-65 | the status part is empty exactly for an unchanged option below verbosity 2, and otherwise starts with the headline naming the option and its status; an always-enabled or always-disabled option adds, from verbosity 1 on, the list of its on or off packages; a mixed option continues with its groups; with the line counts of each case |
| Report.ReportGrowsWithVerbosity | aggregate_port_options/report.py:45-80 | a higher verbosity never prints a shorter report |
| Report.QuietWhenNothingChanged | aggregate_port_options/report.py:48-55 | below verbosity 2, unchanged options without drift print nothing |
| Report.HeadlineReported | aggregate_port_options/report.py:53-65 | at verbosity 2 or more, an option's lines include its status headline |
| Report.VerboseReportNamesAll | aggregate_port_options/report.py:48-65 | at verbosity 2 or more, the report holds the status headline of every option, so each option prints at least one line |
| Report.TheOnly | aggregate_port_options/report.py:101 | taking the element of a one-element set returns its single member |
| Report.PrintPerPackage | aggregate_port_options/report.py:113-121 | the per-package loop prints one `==` conditional per package, in the order given |
| Report.PrintMixedConditionals | aggregate_port_options/report.py:100-121 | a mixed option's conditionals follow the minority heuristic of `MixedConditionals` |
| Report.PrintStatusMakeConf | aggregate_port_options/report.py:91-121 | the status comment or directive of one option, then its conditionals if it is mixed |
| Report.PrintOptionMakeConf | aggregate_port_options/report.py:88-121 | one option's fragment lines: the drift comment, if any, then its status lines |
| Report.PrintMakeConf | aggregate_port_options/report.py:83-123 | the fragment is the header, each option's lines in order, then the end marker |
| Report.MakeConfFramed | aggregate_port_options/report.py:86-123 | the fragment always opens with the generated-header comment and closes with the end-marker comment |
| Report.UnmixedHasNoConditional | aggregate_port_options/report.py:88-96 | an option that is not mixed gets no `.if`: exactly one `OPTIONS_SET+=` line when always enabled, exactly one `OPTIONS_UNSET+=` line when always disabled, only comments when unchanged |
| Report.SingleOnException | aggregate_port_options/report.py:100-104 | a mixed option on in one package and off in several gets exactly one `!=` conditional, which unsets it everywhere except at that package's origin |
| Report.SingleOffException | aggregate_port_options/report.py:106-110 | a mixed option off in one package and on in several gets exactly one `!=` conditional, which sets it everywhere except at that package's origin |
| Report.PerPackageShape | aggregate_port_options/report.py:113-121 | the i-th per-package block tests the i-th package's origin and then applies the directive; the count of tests and of directives equals the number of packages |
| Report.PerPackageMentions | aggregate_port_options/report.py:113-116 | every listed package has a `==` test of its origin directly followed by the directive |
| Report.PerPackageOverrides | aggregate_port_options/report.py:112-121 | for any other mixed option: an `==` test and `OPTIONS_SET+=` for each overridden-on package's origin, an `==` test and `OPTIONS_UNSET+=` for each overridden-off package's origin |
| Report.PerPackageCounts | aggregate_port_options/report.py:112-121 | ... and nothing more: as many `.if` lines as overridden packages, as many set lines as overridden-on and as many unset lines as overridden-off packages |
| Report.NoMixedNoConditional | aggregate_port_options/report.py:83-123 | a fragment with no mixed option holds no `.if` line |
| Report.PackageToOriginEntries | aggregate_port_options/__main__.py:54 | the origin table has an entry for every package name and, when names are unique, that entry is the package's origin |
| Report.AggregatedOriginsKnown | aggregate_port_options/__main__.py:53-55 | every package a `make.conf` conditional names has an origin in the table built from the same records, so no lookup on the output of `iterate_options` misses a key |

## Left out

- The `pkg` and `make` subprocess plumbing in `utils.py` (`Pkg.__call__`, `Ports._run_make`, `get_var`, `get_vars`, `get_target`) is not modelled. It becomes the fields of `Host`: the stripped output lines of each query, or the `CallError` it failed with.
- `UtilityCallError.__str__` is not modelled; its message only goes to the log.
- `__main__.py` is not modelled apart from the `package_to_origin` table: argument parsing, logging setup and the choice between the two outputs are pipeline glue.
- `setup.py` is packaging metadata and is not part of this model.
- All `logging` calls are omitted. The generators are modelled as finite sequences, with no laziness.
- `make` is called with `env=flavor_env`, which replaces the whole environment. The model passes that map as given and does not model the rest of the process environment.
- Report.PrintPerPackage, Report.PrintMixedConditionals and Report.PrintMakeConf iterate the overridden sets in ascending name order. Python iterates a `set` in an unspecified hash order, so the model fixes one admissible order; the lemmas about the fallback case state membership and counts, which do not depend on the order.
- Report.PrintMakeConf requires every package a conditional names to have an origin (`OriginsKnown`). The source raises `KeyError` otherwise. `AggregatedOriginsKnown` shows that the entry point always meets this requirement.
- `_OptionInfoBase` objects updated in place inside a `defaultdict` are modelled as `OptionTally` values in a map that is reassigned. No code shares these objects, so nothing about aliasing is lost.
- `str.isspace` is modelled for the characters Python treats as whitespace. Case, normalisation and encoding play no part here: strings are sequences of code points.
- Subprocess output is taken as text. Decoding errors and invalid UTF-8 are not modelled.
