/** The two renderings of the classified options: the text report and the
    `make.conf` fragment. Printing is appending a line to the output. */
module Report {
  import opened StringOrder
  import opened Text
  import opened PackageProcessing
  import opened OptionProcessing

  /** `_format_package_list`: the names in ascending order, joined by `, `. */
  function FormatPackageList(names: set<string>): string
  {
    Join(SortedElems(names), ", ")
  }

  /** The list prints as nothing exactly when there are no names, or the
      only name is empty. */
  lemma FormatPackageListEmpty(names: set<string>)
    ensures FormatPackageList(names) == "" <==> names <= {""}
  {
    var sorted := SortedElems(names);
    JoinIsEmpty(sorted, ", ");
    if |sorted| == 1 {
      assert sorted[0] in names;
      assert forall x :: x in names ==> x in sorted;
      assert names == {sorted[0]};
    }
  }

  /** Any ascending listing of the names, joined by `, `, is what
      `_format_package_list` prints. */
  lemma FormatPackageListSorted(names: set<string>, listing: seq<string>)
    requires StrictlySorted(listing)
    requires forall x :: x in listing <==> x in names
    ensures FormatPackageList(names) == Join(listing, ", ")
  {
    SortedElemsUnique(names, listing);
  }

  /** One labelled list of `_format_package_lists`: present only when the
      list prints as something. */
  function Part(title: string, packages: string): seq<string>
  {
    if packages != "" then [title + packages] else []
  }

  /** The labelled lists of `_format_package_lists`, in their fixed order;
      a family contributes only when it is wanted. */
  function PackageListParts(option: OptionInfo, wantEnabled: bool, wantDisabled: bool): seq<string>
  {
    LabelledParts(FormatPackageList(option.packagesOverriddenOn), FormatPackageList(option.packagesLeftOn),
                  FormatPackageList(option.packagesOverriddenOff), FormatPackageList(option.packagesLeftOff),
                  wantEnabled, wantDisabled)
  }

  /** The parts built from the four formatted lists. */
  function LabelledParts(overriddenOn: string, leftOn: string, overriddenOff: string, leftOff: string,
                         wantEnabled: bool, wantDisabled: bool): seq<string>
  {
    (if wantEnabled
     then Part("enabled manually: ", overriddenOn) + Part("enabled by default: ", leftOn)
     else [])
    + (if wantDisabled
       then Part("disabled manually: ", overriddenOff) + Part("disabled by default: ", leftOff)
       else [])
  }

  /** Lines with different labels never coincide. */
  lemma LabelsDiffer(title: string, other: string, text: string, otherText: string, at: nat)
    requires at < |title| && at < |other| && title[at] != other[at]
    ensures title + text != other + otherText
  {
    assert (title + text)[at] == title[at];
    assert (other + otherText)[at] == other[at];
  }

  lemma LabelledPartsMeaning(x1: string, x2: string, x3: string, x4: string, wantEnabled: bool, wantDisabled: bool)
    ensures var parts := LabelledParts(x1, x2, x3, x4, wantEnabled, wantDisabled);
      && (("enabled manually: " + x1) in parts <==> wantEnabled && x1 != "")
      && (("enabled by default: " + x2) in parts <==> wantEnabled && x2 != "")
      && (("disabled manually: " + x3) in parts <==> wantDisabled && x3 != "")
      && (("disabled by default: " + x4) in parts <==> wantDisabled && x4 != "")
  {
    var t1, t2, t3, t4 := "enabled manually: ", "enabled by default: ", "disabled manually: ", "disabled by default: ";
    LabelsDiffer(t1, t2, x1, x2, 8);
    LabelsDiffer(t1, t3, x1, x3, 0);
    LabelsDiffer(t1, t4, x1, x4, 0);
    LabelsDiffer(t2, t3, x2, x3, 0);
    LabelsDiffer(t2, t4, x2, x4, 0);
    LabelsDiffer(t3, t4, x3, x4, 9);
  }

  /** Each labelled list appears exactly when its family is wanted and its
      set holds a non-empty name. */
  lemma PackageListPartsMeaning(option: OptionInfo, wantEnabled: bool, wantDisabled: bool)
    ensures var parts := PackageListParts(option, wantEnabled, wantDisabled);
      && (("enabled manually: " + FormatPackageList(option.packagesOverriddenOn)) in parts
          <==> wantEnabled && !(option.packagesOverriddenOn <= {""}))
      && (("enabled by default: " + FormatPackageList(option.packagesLeftOn)) in parts
          <==> wantEnabled && !(option.packagesLeftOn <= {""}))
      && (("disabled manually: " + FormatPackageList(option.packagesOverriddenOff)) in parts
          <==> wantDisabled && !(option.packagesOverriddenOff <= {""}))
      && (("disabled by default: " + FormatPackageList(option.packagesLeftOff)) in parts
          <==> wantDisabled && !(option.packagesLeftOff <= {""}))
  {
    FormatPackageListEmpty(option.packagesOverriddenOn);
    FormatPackageListEmpty(option.packagesLeftOn);
    FormatPackageListEmpty(option.packagesOverriddenOff);
    FormatPackageListEmpty(option.packagesLeftOff);
    LabelledPartsMeaning(FormatPackageList(option.packagesOverriddenOn), FormatPackageList(option.packagesLeftOn),
                         FormatPackageList(option.packagesOverriddenOff), FormatPackageList(option.packagesLeftOff),
                         wantEnabled, wantDisabled);
  }

  /** At most four lists, and the enabled ones come before the disabled
      ones. */
  lemma LabelledPartsOrder(x1: string, x2: string, x3: string, x4: string, wantEnabled: bool, wantDisabled: bool)
    ensures var parts := LabelledParts(x1, x2, x3, x4, wantEnabled, wantDisabled);
      && |parts| <= 4
      && (forall i, j :: 0 <= i < j < |parts| && parts[i][0] == 'd' ==> parts[j][0] == 'd')
  {
    var enabled :=
      if wantEnabled then Part("enabled manually: ", x1) + Part("enabled by default: ", x2) else [];
    var disabled :=
      if wantDisabled then Part("disabled manually: ", x3) + Part("disabled by default: ", x4) else [];
    assert forall k :: 0 <= k < |enabled| ==> enabled[k][0] == 'e';
    assert forall k :: 0 <= k < |disabled| ==> disabled[k][0] == 'd';
  }

  /** `_format_package_lists`: the parts joined by `; `. */
  function PackageListsText(option: OptionInfo, wantEnabled: bool, wantDisabled: bool): string
  {
    Join(PackageListParts(option, wantEnabled, wantDisabled), "; ")
  }

  /** The body of `_format_package_lists` over the four formatted lists:
      each family is tested in turn and a non-empty list appended. */
  method BuildParts(overriddenOn: string, leftOn: string, overriddenOff: string, leftOff: string,
                    wantEnabled: bool, wantDisabled: bool) returns (parts: seq<string>)
    ensures parts == LabelledParts(overriddenOn, leftOn, overriddenOff, leftOff, wantEnabled, wantDisabled)
  {
    parts := [];
    if wantEnabled {
      if overriddenOn != "" {
        parts := parts + ["enabled manually: " + overriddenOn];
      }
      if leftOn != "" {
        parts := parts + ["enabled by default: " + leftOn];
      }
    }
    ghost var enabled := parts;
    if wantDisabled {
      if overriddenOff != "" {
        parts := parts + ["disabled manually: " + overriddenOff];
      }
      if leftOff != "" {
        parts := parts + ["disabled by default: " + leftOff];
      }
      assert parts == enabled + (Part("disabled manually: ", overriddenOff) + Part("disabled by default: ", leftOff));
    } else {
      assert parts == enabled + [];
    }
  }

  /** `_format_package_lists`: the labelled lists joined by `; `. */
  method FormatPackageLists(option: OptionInfo, wantEnabled: bool, wantDisabled: bool) returns (r: string)
    ensures r == PackageListsText(option, wantEnabled, wantDisabled)
  {
    var parts := BuildParts(FormatPackageList(option.packagesOverriddenOn), FormatPackageList(option.packagesLeftOn),
                            FormatPackageList(option.packagesOverriddenOff), FormatPackageList(option.packagesLeftOff),
                            wantEnabled, wantDisabled);
    r := Join(parts, "; ");
  }



  // ---------------------------------------------------------------------
  // The text report (`print_options_report`)

  /** The warning printed first for an option some package does not know. */
  function DriftHeadline(name: string): string
  {
    name + ": exists in port, but not in package (bad port or package should be rebuilt)"
  }

  function DriftLines(option: OptionInfo): seq<string>
  {
    if option.packagesDefaultBad != {} then
      [DriftHeadline(option.name), "  " + FormatPackageList(option.packagesDefaultBad)]
    else []
  }

  /** A titled package list of the mixed-status section, printed only when
      the set is non-empty. */
  function Group(title: string, packages: set<string>): seq<string>
  {
    if packages != {} then [title, "    " + FormatPackageList(packages)] else []
  }

  function StatusLines(option: OptionInfo, verbose: int): seq<string>
  {
    match option.status
    case Unchanged =>
      if verbose >= 2 then [option.name + ": unchanged"] else []
    case AlwaysEnabled =>
      [option.name + ": enabled in all packages"]
      + (if verbose >= 1 then ["  " + FormatPackageList(option.packagesOn)] else [])
    case AlwaysDisabled =>
      [option.name + ": disabled in all packages"]
      + (if verbose >= 1 then ["  " + FormatPackageList(option.packagesOff)] else [])
    case Mixed =>
      [option.name + ": mixed status"] + MixedGroups(option)
  }

  /** The package groups listed under a mixed option, each only when it has
      packages. */
  function MixedGroups(option: OptionInfo): seq<string>
  {
    Group("  overridden to ON", option.packagesOverriddenOn)
    + Group("  overridden to OFF", option.packagesOverriddenOff)
    + Group("  left ON as default", option.packagesLeftOn)
    + Group("  left OFF as default", option.packagesLeftOff)
  }

  /** The titles of a mixed option's groups, in the order they print. */
  const MixedTitles: seq<string> :=
    ["  overridden to ON", "  overridden to OFF", "  left ON as default", "  left OFF as default"]

  /** The packages listed under the `k`-th title of `MixedTitles`. */
  function GroupPackages(option: OptionInfo, k: nat): set<string>
    requires k < 4
  {
    if k == 0 then option.packagesOverriddenOn
    else if k == 1 then option.packagesOverriddenOff
    else if k == 2 then option.packagesLeftOn
    else option.packagesLeftOff
  }

  /** Titled sections in a fixed order, each printed as its title followed
      by its body, and only when it is present. */
  function Sections(titles: seq<string>, present: seq<bool>, bodies: seq<string>): seq<string>
    requires |present| == |titles| && |bodies| == |titles|
  {
    if titles == [] then []
    else
      var n := |titles| - 1;
      Sections(titles[..n], present[..n], bodies[..n]) + Section(titles[n], present[n], bodies[n])
  }

  function Section(title: string, present: bool, body: string): seq<string>
  {
    if present then [title, body] else []
  }

  predicate TitlesDistinct(titles: seq<string>)
  {
    forall k, l :: 0 <= k < l < |titles| ==> titles[k] != titles[l]
  }

  predicate NoBodyIsTitle(titles: seq<string>, bodies: seq<string>)
  {
    forall k, l :: 0 <= k < |bodies| && 0 <= l < |titles| ==> bodies[k] != titles[l]
  }

  /** Every line is the title or the body of some section. */
  predicate FromSections(lines: seq<string>, titles: seq<string>, bodies: seq<string>)
    requires |bodies| == |titles|
  {
    forall i :: 0 <= i < |lines| ==>
      exists k :: 0 <= k < |titles| && (lines[i] == titles[k] || lines[i] == bodies[k])
  }

  /** Only titles before the `n`-th are printed. */
  predicate TitlesBefore(lines: seq<string>, titles: seq<string>, n: nat)
  {
    forall i, k :: 0 <= i < |lines| && 0 <= k < |titles| && lines[i] == titles[k] ==> k < n
  }

  /** A title is printed exactly when its section is present. */
  predicate TitledWhenPresent(lines: seq<string>, titles: seq<string>, present: seq<bool>)
    requires |present| == |titles|
  {
    forall k :: 0 <= k < |titles| ==> (titles[k] in lines <==> present[k])
  }

  /** Every printed title is directly followed by its section's body. */
  predicate BodyFollows(lines: seq<string>, titles: seq<string>, bodies: seq<string>)
    requires |bodies| == |titles|
  {
    forall i, k :: 0 <= i < |lines| && 0 <= k < |titles| && lines[i] == titles[k] ==>
      i + 1 < |lines| && lines[i + 1] == bodies[k]
  }

  /** Printed titles come in the order of `titles`. */
  predicate InTitleOrder(lines: seq<string>, titles: seq<string>)
  {
    forall i, j, k, l ::
      0 <= i < j < |lines| && 0 <= k < |titles| && 0 <= l < |titles| && lines[i] == titles[k] && lines[j] == titles[l]
      ==> k < l
  }

  /** Every printed line is a title or a body of some section. */
  lemma {:induction false} SectionsLines(titles: seq<string>, present: seq<bool>, bodies: seq<string>)
    requires |present| == |titles| && |bodies| == |titles|
    ensures FromSections(Sections(titles, present, bodies), titles, bodies)
  {
    if titles != [] {
      var n := |titles| - 1;
      var ts, ps, bs := titles[..n], present[..n], bodies[..n];
      SectionsLines(ts, ps, bs);
      var front := Sections(ts, ps, bs);
      var lines := Sections(titles, present, bodies);
      assert lines == front + Section(titles[n], present[n], bodies[n]);
      forall i | 0 <= i < |lines|
        ensures exists k :: 0 <= k < |titles| && (lines[i] == titles[k] || lines[i] == bodies[k])
      {
        if i < |front| {
          var k :| 0 <= k < n && (front[i] == ts[k] || front[i] == bs[k]);
          assert lines[i] == front[i] && ts[k] == titles[k] && bs[k] == bodies[k];
        } else {
          assert lines[i] == titles[n] || lines[i] == bodies[n];
        }
      }
    }
  }

  /** The sections before the last one print only titles that come before
      the last title. */
  lemma FrontTitles(titles: seq<string>, present: seq<bool>, bodies: seq<string>)
    requires |present| == |titles| && |bodies| == |titles| && titles != []
    requires TitlesDistinct(titles) && NoBodyIsTitle(titles, bodies)
    ensures TitlesBefore(Sections(titles[..|titles| - 1], present[..|titles| - 1], bodies[..|titles| - 1]),
                         titles, |titles| - 1)
  {
    var n := |titles| - 1;
    var ts, ps, bs := titles[..n], present[..n], bodies[..n];
    SectionsLines(ts, ps, bs);
    var front := Sections(ts, ps, bs);
    forall i, k | 0 <= i < |front| && 0 <= k < |titles| && front[i] == titles[k]
      ensures k < n
    {
      var m :| 0 <= m < n && (front[i] == ts[m] || front[i] == bs[m]);
      assert ts[m] == titles[m] && bs[m] == bodies[m];
    }
  }

  /** A title is printed exactly when its section is present. */
  lemma {:induction false} SectionsTitles(titles: seq<string>, present: seq<bool>, bodies: seq<string>)
    requires |present| == |titles| && |bodies| == |titles|
    requires TitlesDistinct(titles) && NoBodyIsTitle(titles, bodies)
    ensures TitledWhenPresent(Sections(titles, present, bodies), titles, present)
  {
    if titles != [] {
      var n := |titles| - 1;
      var ts, ps, bs := titles[..n], present[..n], bodies[..n];
      SectionsTitles(ts, ps, bs);
      FrontTitles(titles, present, bodies);
      var front := Sections(ts, ps, bs);
      var back := Section(titles[n], present[n], bodies[n]);
      var lines := Sections(titles, present, bodies);
      assert lines == front + back;
      forall k | 0 <= k < |titles|
        ensures titles[k] in lines <==> present[k]
      {
        if k < n {
          assert ts[k] == titles[k] && ps[k] == present[k];
          assert titles[k] !in back;
        } else {
          assert titles[n] !in front;
        }
      }
    }
  }

  /** A printed title is directly followed by its section's body. */
  lemma {:induction false} SectionsBodies(titles: seq<string>, present: seq<bool>, bodies: seq<string>)
    requires |present| == |titles| && |bodies| == |titles|
    requires TitlesDistinct(titles) && NoBodyIsTitle(titles, bodies)
    ensures BodyFollows(Sections(titles, present, bodies), titles, bodies)
  {
    if titles != [] {
      var n := |titles| - 1;
      var ts, ps, bs := titles[..n], present[..n], bodies[..n];
      SectionsBodies(ts, ps, bs);
      FrontTitles(titles, present, bodies);
      var front := Sections(ts, ps, bs);
      var lines := Sections(titles, present, bodies);
      assert lines == front + Section(titles[n], present[n], bodies[n]);
      forall i, k | 0 <= i < |lines| && 0 <= k < |titles| && lines[i] == titles[k]
        ensures i + 1 < |lines| && lines[i + 1] == bodies[k]
      {
        if i < |front| {
          assert front[i] == titles[k] && k < n;
          assert ts[k] == titles[k] && bs[k] == bodies[k];
        } else if i == |front| {
          assert k == n;
        }
      }
    }
  }

  /** Titles are printed in their given order. */
  lemma {:induction false} SectionsOrder(titles: seq<string>, present: seq<bool>, bodies: seq<string>)
    requires |present| == |titles| && |bodies| == |titles|
    requires TitlesDistinct(titles) && NoBodyIsTitle(titles, bodies)
    ensures InTitleOrder(Sections(titles, present, bodies), titles)
  {
    if titles != [] {
      var n := |titles| - 1;
      var ts, ps, bs := titles[..n], present[..n], bodies[..n];
      SectionsOrder(ts, ps, bs);
      FrontTitles(titles, present, bodies);
      var front := Sections(ts, ps, bs);
      var lines := Sections(titles, present, bodies);
      assert lines == front + Section(titles[n], present[n], bodies[n]);
      forall i, j, k, l | 0 <= i < j < |lines| && 0 <= k < |titles| && 0 <= l < |titles|
          && lines[i] == titles[k] && lines[j] == titles[l]
        ensures k < l
      {
        if j < |front| {
          assert front[i] == titles[k] && front[j] == titles[l] && k < n && l < n;
          assert ts[k] == titles[k] && ts[l] == titles[l];
        } else if j == |front| {
          assert front[i] == titles[k] && k < n;
          assert l == n;
        }
      }
    }
  }

  /** The line under a title of a mixed option: its packages, indented. */
  function GroupBody(option: OptionInfo, k: nat): string
    requires k < 4
  {
    "    " + FormatPackageList(GroupPackages(option, k))
  }

  /** Which groups of a mixed option have packages, and their bodies. */
  function GroupsPresent(option: OptionInfo): seq<bool>
  {
    [GroupPackages(option, 0) != {}, GroupPackages(option, 1) != {},
     GroupPackages(option, 2) != {}, GroupPackages(option, 3) != {}]
  }

  function GroupBodies(option: OptionInfo): seq<string>
  {
    [GroupBody(option, 0), GroupBody(option, 1), GroupBody(option, 2), GroupBody(option, 3)]
  }

  /** Four sections print as the concatenation of each one's lines. */
  lemma FourSections(titles: seq<string>, present: seq<bool>, bodies: seq<string>)
    requires |titles| == 4 && |present| == 4 && |bodies| == 4
    ensures Sections(titles, present, bodies)
         == Section(titles[0], present[0], bodies[0]) + Section(titles[1], present[1], bodies[1])
          + Section(titles[2], present[2], bodies[2]) + Section(titles[3], present[3], bodies[3])
  {
    var ts, ps, bs := titles, present, bodies;
    assert ts[..3][..2] == ts[..2] && ps[..3][..2] == ps[..2] && bs[..3][..2] == bs[..2];
    assert ts[..2][..1] == ts[..1] && ps[..2][..1] == ps[..1] && bs[..2][..1] == bs[..1];
    assert ts[..1][..0] == [] && ps[..1][..0] == [] && bs[..1][..0] == [];
    assert Sections(ts[..1], ps[..1], bs[..1]) == Section(ts[0], ps[0], bs[0]);
    assert Sections(ts[..2], ps[..2], bs[..2]) == Section(ts[0], ps[0], bs[0]) + Section(ts[1], ps[1], bs[1]);
  }

  /** A group is the section with its title, presence and body. */
  lemma GroupIsSection(option: OptionInfo, k: nat)
    requires k < 4
    ensures Group(MixedTitles[k], GroupPackages(option, k))
         == Section(MixedTitles[k], GroupPackages(option, k) != {}, GroupBody(option, k))
  {
  }

  lemma MixedGroupsAreSections(option: OptionInfo)
    ensures MixedGroups(option) == Sections(MixedTitles, GroupsPresent(option), GroupBodies(option))
  {
    FourSections(MixedTitles, GroupsPresent(option), GroupBodies(option));
    GroupIsSection(option, 0);
    GroupIsSection(option, 1);
    GroupIsSection(option, 2);
    GroupIsSection(option, 3);
  }

  /** The four titles of `MixedTitles` are distinct, and no package line
      reads as one of them. */
  lemma MixedTitlesApart(option: OptionInfo)
    ensures TitlesDistinct(MixedTitles) && NoBodyIsTitle(MixedTitles, GroupBodies(option))
  {
    var bs := GroupBodies(option);
    forall k, l | 0 <= k < 4 && 0 <= l < 4
      ensures bs[k] != MixedTitles[l]
    {
      assert bs[k][2] == ' ' && MixedTitles[l][2] != ' ';
    }
    assert |MixedTitles[0]| == 18 && |MixedTitles[1]| == 19 && |MixedTitles[2]| == 20 && |MixedTitles[3]| == 21;
  }

  /** Under a mixed option's headline, the title of each group is printed
      exactly when the group has packages, directly followed by its
      packages indented by four spaces, and the groups come in the order
      overridden to ON, overridden to OFF, left ON, left OFF; nothing else
      is printed. */
  lemma MixedGroupsMeaning(option: OptionInfo)
    ensures TitledWhenPresent(MixedGroups(option), MixedTitles, GroupsPresent(option))
    ensures BodyFollows(MixedGroups(option), MixedTitles, GroupBodies(option))
    ensures InTitleOrder(MixedGroups(option), MixedTitles)
    ensures FromSections(MixedGroups(option), MixedTitles, GroupBodies(option))
  {
    var ps, bs := GroupsPresent(option), GroupBodies(option);
    MixedGroupsAreSections(option);
    MixedTitlesApart(option);
    SectionsLines(MixedTitles, ps, bs);
    SectionsTitles(MixedTitles, ps, bs);
    SectionsBodies(MixedTitles, ps, bs);
    SectionsOrder(MixedTitles, ps, bs);
  }

  /** The same facts, group by group: the `k`-th title is printed exactly
      when its packages are non-empty, and the next line lists them. */
  lemma MixedGroupTitles(option: OptionInfo, k: nat)
    requires k < 4
    ensures MixedTitles[k] in MixedGroups(option) <==> GroupPackages(option, k) != {}
    ensures forall i :: 0 <= i < |MixedGroups(option)| && MixedGroups(option)[i] == MixedTitles[k] ==>
      i + 1 < |MixedGroups(option)| && MixedGroups(option)[i + 1] == "    " + FormatPackageList(GroupPackages(option, k))
  {
    MixedGroupsMeaning(option);
    assert GroupsPresent(option)[k] == (GroupPackages(option, k) != {});
    assert GroupBodies(option)[k] == GroupBody(option, k);
  }

  /** The lines one option contributes to the report. */
  function OptionReport(option: OptionInfo, verbose: int): seq<string>
  {
    DriftLines(option) + StatusLines(option, verbose)
  }

  /** The whole report: each option's lines, in the order of the options. */
  function ReportLines(options: seq<OptionInfo>, verbose: int): seq<string>
  {
    if options == [] then []
    else ReportLines(options[..|options| - 1], verbose) + OptionReport(options[|options| - 1], verbose)
  }

  /** A titled list of the mixed-status section, printed line by line. */
  method PrintGroup(title: string, packages: set<string>) returns (out: seq<string>)
    ensures out == Group(title, packages)
  {
    out := [];
    if packages != {} {
      out := out + [title];
      out := out + ["    " + FormatPackageList(packages)];
    }
  }

  /** The status part of one iteration of the report loop. */
  method PrintStatus(option: OptionInfo, verbose: int) returns (out: seq<string>)
    ensures out == StatusLines(option, verbose)
  {
    out := [];
    match option.status {
      case Unchanged =>
        if verbose >= 2 {
          out := out + [option.name + ": unchanged"];
        }
      case AlwaysEnabled =>
        out := out + [option.name + ": enabled in all packages"];
        if verbose >= 1 {
          out := out + ["  " + FormatPackageList(option.packagesOn)];
        }
      case AlwaysDisabled =>
        out := out + [option.name + ": disabled in all packages"];
        if verbose >= 1 {
          out := out + ["  " + FormatPackageList(option.packagesOff)];
        }
      case Mixed =>
        out := out + [option.name + ": mixed status"];
        var groups := PrintMixedGroups(option);
        out := out + groups;
    }
  }

  /** The groups of a mixed option, printed one after the other. */
  method PrintMixedGroups(option: OptionInfo) returns (out: seq<string>)
    ensures out == MixedGroups(option)
  {
    out := PrintGroup("  overridden to ON", option.packagesOverriddenOn);
    var group := PrintGroup("  overridden to OFF", option.packagesOverriddenOff);
    out := out + group;
    group := PrintGroup("  left ON as default", option.packagesLeftOn);
    out := out + group;
    group := PrintGroup("  left OFF as default", option.packagesLeftOff);
    out := out + group;
  }

  /** One iteration of the report loop, printing line by line. */
  method PrintOptionReport(option: OptionInfo, verbose: int) returns (out: seq<string>)
    ensures out == OptionReport(option, verbose)
  {
    out := [];
    if option.packagesDefaultBad != {} {
      out := out + [DriftHeadline(option.name)];
      out := out + ["  " + FormatPackageList(option.packagesDefaultBad)];
    }
    var status := PrintStatus(option, verbose);
    out := out + status;
  }

  /** `print_options_report`: the printed lines, in order. */
  method PrintOptionsReport(options: seq<OptionInfo>, verbose: int) returns (out: seq<string>)
    ensures out == ReportLines(options, verbose)
  {
    out := [];
    for i := 0 to |options|
      invariant out == ReportLines(options[..i], verbose)
    {
      var lines := PrintOptionReport(options[i], verbose);
      assert options[..i + 1][..i] == options[..i];
      out := out + lines;
    }
    assert options[..|options|] == options;
  }

  // ---------------------------------------------------------------------
  // The make.conf fragment (`print_make_conf`)

  const SetDirective := "OPTIONS_SET+="
  const UnsetDirective := "OPTIONS_UNSET+="
  const ConditionalStart := ".if"

  /** A make comment line. */
  function Comment(text: string): string
  {
    "# " + text
  }

  /** A line adding the rest of the line to `OPTIONS_SET` or `OPTIONS_UNSET`. */
  function Directive(directive: string, rest: string): string
  {
    directive + "\t" + rest
  }

  const MakeConfHeader := Comment("options list generated by aggregate_port_options")
  const MakeConfFooter := Comment("end generated options list")

  /** A conditional that applies `directive` to the option when the port
      being built is (`==`) or is not (`!=`) the one at `origin`. */
  function Conditional(test: string, origin: string, directive: string, name: string): seq<string>
  {
    [TestLine(test, origin), Directive(directive, name), ".endif"]
  }

  /** The make test comparing the port being built with `origin`. */
  function TestLine(test: string, origin: string): string
  {
    ConditionalStart + " \"${.CURDIR:H:T}/${.CURDIR:T}\" " + test + " \"" + origin + "\""
  }

  /** The single package of a one-element set (what `next(iter(s))` picks). */
  function TheOnly(packages: set<string>): (p: string)
    requires |packages| == 1
    ensures packages == {p}
  {
    var sorted := SortedElems(packages);
    assert sorted[0] in packages;
    assert forall x :: x in packages ==> x in sorted;
    sorted[0]
  }

  /** Whether the option is mixed with a single package on one side and
      several on the other, so that one negated conditional covers it. */
  predicate SingleOn(option: OptionInfo)
  {
    |option.packagesOn| == 1 && |option.packagesOff| > 1
  }

  predicate SingleOff(option: OptionInfo)
  {
    |option.packagesOff| == 1 && |option.packagesOn| > 1
  }

  /** The packages whose origins the conditionals of `option` name. */
  function NeedsOrigins(option: OptionInfo): set<string>
  {
    if option.status != Mixed then {}
    else if SingleOn(option) then option.packagesOn
    else if SingleOff(option) then option.packagesOff
    else option.packagesOverriddenOn + option.packagesOverriddenOff
  }

  /** One `==` conditional per package, in the order given. */
  function PerPackage(packages: seq<string>, directive: string, name: string, origins: map<string, string>): seq<string>
    requires forall i :: 0 <= i < |packages| ==> packages[i] in origins
  {
    if packages == [] then []
    else
      var last := packages[|packages| - 1];
      PerPackage(packages[..|packages| - 1], directive, name, origins)
      + Conditional("==", origins[last], directive, name)
  }

  /** The conditionals printed after the headline of a mixed option. */
  function MixedConditionals(option: OptionInfo, origins: map<string, string>): seq<string>
    requires NeedsOrigins(option) <= origins.Keys
  {
    if option.status != Mixed then []
    else if SingleOn(option) then
      Conditional("!=", origins[TheOnly(option.packagesOn)], UnsetDirective, option.name)
    else if SingleOff(option) then
      Conditional("!=", origins[TheOnly(option.packagesOff)], SetDirective, option.name)
    else
      PerPackage(SortedElems(option.packagesOverriddenOn), SetDirective, option.name, origins)
      + PerPackage(SortedElems(option.packagesOverriddenOff), UnsetDirective, option.name, origins)
  }

  /** The comment warning that some package does not know the option. */
  function DriftComment(option: OptionInfo): seq<string>
  {
    if option.packagesDefaultBad != {} then [Comment(option.name + ": exists in port, but not in package")] else []
  }

  /** The status lines of one option, given its `_format_package_lists` text. */
  function StatusMakeConf(option: OptionInfo, lists: string, origins: map<string, string>): seq<string>
    requires NeedsOrigins(option) <= origins.Keys
  {
    match option.status
    case Unchanged => [Comment(option.name + ": unchanged, " + lists)]
    case AlwaysEnabled => [Directive(SetDirective, option.name + "  # " + lists)]
    case AlwaysDisabled => [Directive(UnsetDirective, option.name + "  # " + lists)]
    case Mixed => [Comment(option.name + ": mixed status, " + lists)] + MixedConditionals(option, origins)
  }

  /** The lines one option contributes to the fragment. */
  function OptionMakeConf(option: OptionInfo, origins: map<string, string>): seq<string>
    requires NeedsOrigins(option) <= origins.Keys
  {
    DriftComment(option) + StatusMakeConf(option, PackageListsText(option, true, true), origins)
  }

  predicate OriginsKnown(options: seq<OptionInfo>, origins: map<string, string>)
  {
    forall i :: 0 <= i < |options| ==> NeedsOrigins(options[i]) <= origins.Keys
  }

  function MakeConfBody(options: seq<OptionInfo>, origins: map<string, string>): seq<string>
    requires OriginsKnown(options, origins)
  {
    if options == [] then []
    else
      MakeConfBody(options[..|options| - 1], origins)
      + OptionMakeConf(options[|options| - 1], origins)
  }

  /** The whole fragment, between its header and end marker. */
  function MakeConf(options: seq<OptionInfo>, origins: map<string, string>): seq<string>
    requires OriginsKnown(options, origins)
  {
    [MakeConfHeader] + MakeConfBody(options, origins) + [MakeConfFooter]
  }

  /** The `==` loop of the fallback case, one conditional per package. */
  method PrintPerPackage(packages: seq<string>, directive: string, name: string, origins: map<string, string>)
    returns (out: seq<string>)
    requires forall i :: 0 <= i < |packages| ==> packages[i] in origins
    ensures out == PerPackage(packages, directive, name, origins)
  {
    out := [];
    for k := 0 to |packages|
      invariant out == PerPackage(packages[..k], directive, name, origins)
    {
      var package := packages[k];
      assert packages[..k + 1][..k] == packages[..k];
      ghost var before := out;
      out := out + [TestLine("==", origins[package])];
      out := out + [Directive(directive, name)];
      out := out + [".endif"];
      assert out == before + Conditional("==", origins[package], directive, name);
    }
    assert packages[..|packages|] == packages;
  }

  /** The conditionals of a mixed option, printed line by line. */
  method PrintMixedConditionals(option: OptionInfo, origins: map<string, string>) returns (out: seq<string>)
    requires option.status == Mixed
    requires NeedsOrigins(option) <= origins.Keys
    ensures out == MixedConditionals(option, origins)
  {
    if SingleOn(option) {
      var package := TheOnly(option.packagesOn);
      out := Conditional("!=", origins[package], UnsetDirective, option.name);
    } else if SingleOff(option) {
      var package := TheOnly(option.packagesOff);
      out := Conditional("!=", origins[package], SetDirective, option.name);
    } else {
      var onLines := PrintPerPackage(SortedElems(option.packagesOverriddenOn), SetDirective, option.name, origins);
      var offLines := PrintPerPackage(SortedElems(option.packagesOverriddenOff), UnsetDirective, option.name, origins);
      out := onLines + offLines;
    }
  }

  /** The status part of one iteration of the `make.conf` loop. */
  method PrintStatusMakeConf(option: OptionInfo, lists: string, origins: map<string, string>) returns (out: seq<string>)
    requires NeedsOrigins(option) <= origins.Keys
    ensures out == StatusMakeConf(option, lists, origins)
  {
    match option.status {
      case Unchanged =>
        out := [Comment(option.name + ": unchanged, " + lists)];
      case AlwaysEnabled =>
        out := [Directive(SetDirective, option.name + "  # " + lists)];
      case AlwaysDisabled =>
        out := [Directive(UnsetDirective, option.name + "  # " + lists)];
      case Mixed =>
        out := [Comment(option.name + ": mixed status, " + lists)];
        var conditionals := PrintMixedConditionals(option, origins);
        out := out + conditionals;
    }
  }

  /** One iteration of the `make.conf` loop. */
  method PrintOptionMakeConf(option: OptionInfo, origins: map<string, string>) returns (out: seq<string>)
    requires NeedsOrigins(option) <= origins.Keys
    ensures out == OptionMakeConf(option, origins)
  {
    out := [];
    if option.packagesDefaultBad != {} {
      out := out + [Comment(option.name + ": exists in port, but not in package")];
    }
    var lists := FormatPackageLists(option, true, true);
    var status := PrintStatusMakeConf(option, lists, origins);
    out := out + status;
  }

  /** `print_make_conf`: the printed lines, in order: the header, the
      lines of each option, the end marker. `origins` maps each package name
      to its origin; every package a conditional names must have one. */
  method PrintMakeConf(options: seq<OptionInfo>, origins: map<string, string>) returns (out: seq<string>)
    requires OriginsKnown(options, origins)
    ensures out == MakeConf(options, origins)
  {
    var body: seq<string> := [];
    assert OriginsKnown(options[..0], origins);
    for i := 0 to |options|
      invariant OriginsKnown(options[..i], origins)
      invariant body == MakeConfBody(options[..i], origins)
    {
      assert NeedsOrigins(options[i]) <= origins.Keys;
      var lines := PrintOptionMakeConf(options[i], origins);
      MakeConfBodyStep(options, origins, i);
      body := body + lines;
    }
    assert options[..|options|] == options;
    out := [MakeConfHeader] + body + [MakeConfFooter];
  }

  lemma MakeConfBodyStep(options: seq<OptionInfo>, origins: map<string, string>, i: nat)
    requires OriginsKnown(options, origins)
    requires i < |options|
    ensures OriginsKnown(options[..i], origins) && OriginsKnown(options[..i + 1], origins)
    ensures MakeConfBody(options[..i + 1], origins)
            == MakeConfBody(options[..i], origins) + OptionMakeConf(options[i], origins)
  {
    assert options[..i + 1][..i] == options[..i];
  }

  // ---------------------------------------------------------------------
  // Properties of the text report

  /** The drift warning leads an option's report exactly when some package
      has the option among its defaults without declaring it, and the next
      line lists those packages. */
  lemma DriftReported(option: OptionInfo, verbose: int)
    ensures var lines := OptionReport(option, verbose);
      && (option.packagesDefaultBad != {} <==> lines != [] && lines[0] == DriftHeadline(option.name))
      && (option.packagesDefaultBad != {} ==> lines[1] == "  " + FormatPackageList(option.packagesDefaultBad))
  {
    if option.packagesDefaultBad == {} {
      var lines := StatusLines(option, verbose);
      assert OptionReport(option, verbose) == lines;
      StatusHeadlineIsNotDrift(option, verbose);
    }
  }

  lemma StatusHeadlineIsNotDrift(option: OptionInfo, verbose: int)
    ensures var lines := StatusLines(option, verbose);
      lines == [] || lines[0] != DriftHeadline(option.name)
  {
    var lines := StatusLines(option, verbose);
    var drift := DriftHeadline(option.name);
    var rest := ": exists in port, but not in package (bad port or package should be rebuilt)";
    assert |drift| == |option.name| + |rest|;
    match option.status {
      case Unchanged =>
      case AlwaysEnabled =>
        assert |lines[0]| == |option.name| + |": enabled in all packages"|;
      case AlwaysDisabled =>
        assert |lines[0]| == |option.name| + |": disabled in all packages"|;
      case Mixed =>
        assert |lines[0]| == |option.name| + |": mixed status"|;
    }
  }

  /** Raising the verbosity only appends lines to an option's report: an
      unchanged option gains its status line at 2, an option with the same
      state everywhere gains its package list at 1, a mixed option prints
      the same at every level. */
  lemma VerbosityOnlyAppends(option: OptionInfo, verbose: int, more: int)
    requires verbose <= more
    ensures OptionReport(option, verbose) <= OptionReport(option, more)
    ensures option.status == Mixed ==> OptionReport(option, verbose) == OptionReport(option, more)
  {
    StatusOnlyAppends(option, verbose, more);
    PrefixAfterSameStart(DriftLines(option), StatusLines(option, verbose), StatusLines(option, more));
  }

  lemma PrefixAfterSameStart(start: seq<string>, few: seq<string>, many: seq<string>)
    requires few <= many
    ensures start + few <= start + many
  {
    assert (start + many)[..|start + few|] == start + many[..|few|];
  }

  /** The line that names an option and its status. */
  function StatusHeadline(option: OptionInfo): string
  {
    match option.status
    case Unchanged => option.name + ": unchanged"
    case AlwaysEnabled => option.name + ": enabled in all packages"
    case AlwaysDisabled => option.name + ": disabled in all packages"
    case Mixed => option.name + ": mixed status"
  }

  /** What each status prints at a verbosity: an unchanged option its
      headline only from 2 on; an option with the same state everywhere its
      headline always and, from 1 on, the packages that have it in that
      state; a mixed option its headline and then its groups. */
  lemma StatusLineCount(option: OptionInfo, verbose: int)
    ensures var lines := StatusLines(option, verbose);
      (lines != [] <==> option.status != Unchanged || verbose >= 2)
      && (lines != [] ==> lines[0] == StatusHeadline(option))
    ensures option.status == Unchanged ==>
      |StatusLines(option, verbose)| == (if verbose >= 2 then 1 else 0)
    ensures option.status == AlwaysEnabled || option.status == AlwaysDisabled ==>
      |StatusLines(option, verbose)| == (if verbose >= 1 then 2 else 1)
    ensures option.status == AlwaysEnabled && verbose >= 1 ==>
      StatusLines(option, verbose)[1] == "  " + FormatPackageList(option.packagesOn)
    ensures option.status == AlwaysDisabled && verbose >= 1 ==>
      StatusLines(option, verbose)[1] == "  " + FormatPackageList(option.packagesOff)
    ensures option.status == Mixed ==> StatusLines(option, verbose)[1..] == MixedGroups(option)
  {
  }

  lemma StatusOnlyAppends(option: OptionInfo, verbose: int, more: int)
    requires verbose <= more
    ensures StatusLines(option, verbose) <= StatusLines(option, more)
    ensures option.status == Mixed ==> StatusLines(option, verbose) == StatusLines(option, more)
  {
    var few, many := StatusLines(option, verbose), StatusLines(option, more);
    match option.status {
      case Unchanged =>
      case AlwaysEnabled =>
        assert many[..|few|] == few;
      case AlwaysDisabled =>
        assert many[..|few|] == few;
      case Mixed =>
    }
  }

  /** Over the whole report, a higher verbosity never prints fewer lines. */
  lemma {:induction false} ReportGrowsWithVerbosity(options: seq<OptionInfo>, verbose: int, more: int)
    requires verbose <= more
    ensures |ReportLines(options, verbose)| <= |ReportLines(options, more)|
  {
    if options != [] {
      var n := |options| - 1;
      ReportGrowsWithVerbosity(options[..n], verbose, more);
      VerbosityOnlyAppends(options[n], verbose, more);
    }
  }

  /** Below verbosity 2, options that are unchanged everywhere and known to
      every package that defaults them print nothing at all. */
  lemma {:induction false} QuietWhenNothingChanged(options: seq<OptionInfo>, verbose: int)
    requires verbose < 2
    requires forall i :: 0 <= i < |options| ==>
      options[i].status == Unchanged && options[i].packagesDefaultBad == {}
    ensures ReportLines(options, verbose) == []
  {
    if options != [] {
      QuietWhenNothingChanged(options[..|options| - 1], verbose);
    }
  }

  /** At verbosity 2 an option's own lines hold its status headline. */
  lemma HeadlineReported(option: OptionInfo, verbose: int)
    requires verbose >= 2
    ensures StatusHeadline(option) in OptionReport(option, verbose)
  {
    StatusLineCount(option, verbose);
    var drift, status := DriftLines(option), StatusLines(option, verbose);
    assert (drift + status)[|drift|] == status[0];
  }

  /** At verbosity 2 every option prints its status headline. */
  lemma {:induction false} VerboseReportNamesAll(options: seq<OptionInfo>, verbose: int)
    requires verbose >= 2
    ensures forall i :: 0 <= i < |options| ==> StatusHeadline(options[i]) in ReportLines(options, verbose)
    ensures |ReportLines(options, verbose)| >= |options|
  {
    if options != [] {
      var n := |options| - 1;
      VerboseReportNamesAll(options[..n], verbose);
      HeadlineReported(options[n], verbose);
      var front, last := ReportLines(options[..n], verbose), OptionReport(options[n], verbose);
      assert ReportLines(options, verbose) == front + last;
      forall i | 0 <= i < |options|
        ensures StatusHeadline(options[i]) in front + last
      {
        var h := StatusHeadline(options[i]);
        if i < n {
          assert options[..n][i] == options[i];
          assert h in front;
        } else {
          assert h in last;
        }
      }
    }
  }

  // ---------------------------------------------------------------------
  // Properties of the make.conf fragment

  /** How many lines start with `prefix`. */
  function CountStarting(lines: seq<string>, prefix: string): nat
  {
    if lines == [] then 0
    else CountStarting(lines[..|lines| - 1], prefix) + (if prefix <= lines[|lines| - 1] then 1 else 0)
  }

  lemma {:induction false} CountStartingAppend(a: seq<string>, b: seq<string>, prefix: string)
    ensures CountStarting(a + b, prefix) == CountStarting(a, prefix) + CountStarting(b, prefix)
    decreases |b|
  {
    if b == [] {
      assert a + b == a;
    } else {
      var n := |b| - 1;
      assert (a + b)[..|a + b| - 1] == a + b[..n];
      CountStartingAppend(a, b[..n], prefix);
    }
  }

  /** The fragment opens with its header and closes with its end marker. */
  lemma MakeConfFramed(options: seq<OptionInfo>, origins: map<string, string>)
    requires OriginsKnown(options, origins)
    ensures var lines := MakeConf(options, origins);
      |lines| >= 2 && lines[0] == MakeConfHeader && lines[|lines| - 1] == MakeConfFooter
  {
  }

  /** The three kinds of line a conditional is counted by. */
  predicate CountsAs(lines: seq<string>, conditionals: nat, sets: nat, unsets: nat)
  {
    && CountStarting(lines, ConditionalStart) == conditionals
    && CountStarting(lines, SetDirective) == sets
    && CountStarting(lines, UnsetDirective) == unsets
  }

  lemma DirectiveLineCounts(directive: string, rest: string)
    requires directive == SetDirective || directive == UnsetDirective
    ensures CountsAs([Directive(directive, rest)], 0,
                     if directive == SetDirective then 1 else 0,
                     if directive == UnsetDirective then 1 else 0)
  {
    var line := Directive(directive, rest);
    var single: seq<string> := [line];
    assert single[..0] == [];
    assert line[0] == 'O' && line[8] == directive[8];
    assert directive <= line by {
      assert line[..|directive|] == directive;
    }
  }

  lemma CommentLineCounts(text: string)
    ensures CountsAs([Comment(text)], 0, 0, 0)
  {
    var line := Comment(text);
    var single: seq<string> := [line];
    assert single[..0] == [];
    assert line[0] == '#';
  }

  /** A conditional holds one test, one directive and no other counted line. */
  lemma ConditionalCounts(test: string, origin: string, directive: string, name: string)
    requires directive == SetDirective || directive == UnsetDirective
    ensures CountsAs(Conditional(test, origin, directive, name), 1,
                     if directive == SetDirective then 1 else 0,
                     if directive == UnsetDirective then 1 else 0)
  {
    var first: seq<string> := [TestLine(test, origin)];
    var middle: seq<string> := [Directive(directive, name)];
    var ending: seq<string> := [".endif"];
    assert Conditional(test, origin, directive, name) == first + middle + ending;
    assert first[..0] == [] && ending[..0] == [];
    assert ConditionalStart <= first[0] by {
      assert first[0][..3] == ConditionalStart;
    }
    assert first[0][0] == '.';
    assert ending[0][1] == 'e';
    DirectiveLineCounts(directive, name);
    CountStartingAppend(first, middle, ConditionalStart);
    CountStartingAppend(first, middle, SetDirective);
    CountStartingAppend(first, middle, UnsetDirective);
    CountStartingAppend(first + middle, ending, ConditionalStart);
    CountStartingAppend(first + middle, ending, SetDirective);
    CountStartingAppend(first + middle, ending, UnsetDirective);
  }

  lemma CountsAsAppend(a: seq<string>, b: seq<string>, ca: nat, sa: nat, ua: nat, cb: nat, sb: nat, ub: nat)
    requires CountsAs(a, ca, sa, ua) && CountsAs(b, cb, sb, ub)
    ensures CountsAs(a + b, ca + cb, sa + sb, ua + ub)
  {
    CountStartingAppend(a, b, ConditionalStart);
    CountStartingAppend(a, b, SetDirective);
    CountStartingAppend(a, b, UnsetDirective);
  }

  lemma DriftCommentCounts(option: OptionInfo)
    ensures CountsAs(DriftComment(option), 0, 0, 0)
  {
    if option.packagesDefaultBad != {} {
      CommentLineCounts(option.name + ": exists in port, but not in package");
    }
  }

  lemma OptionMakeConfCounts(option: OptionInfo, origins: map<string, string>, conditionals: nat, sets: nat, unsets: nat)
    requires NeedsOrigins(option) <= origins.Keys
    requires CountsAs(StatusMakeConf(option, PackageListsText(option, true, true), origins), conditionals, sets, unsets)
    ensures CountsAs(OptionMakeConf(option, origins), conditionals, sets, unsets)
  {
    DriftCommentCounts(option);
    CountsAsAppend(DriftComment(option), StatusMakeConf(option, PackageListsText(option, true, true), origins),
                   0, 0, 0, conditionals, sets, unsets);
  }

  /** An option that is not mixed gets no conditional: one `OPTIONS_SET+=`
      line when enabled everywhere, one `OPTIONS_UNSET+=` line when disabled
      everywhere, and only comments when unchanged. */
  lemma UnmixedHasNoConditional(option: OptionInfo, origins: map<string, string>)
    requires option.status != Mixed
    ensures CountsAs(OptionMakeConf(option, origins), 0,
                     if option.status == AlwaysEnabled then 1 else 0,
                     if option.status == AlwaysDisabled then 1 else 0)
  {
    var lists := PackageListsText(option, true, true);
    match option.status {
      case Unchanged =>
        CommentLineCounts(option.name + ": unchanged, " + lists);
      case AlwaysEnabled =>
        DirectiveLineCounts(SetDirective, option.name + "  # " + lists);
      case AlwaysDisabled =>
        DirectiveLineCounts(UnsetDirective, option.name + "  # " + lists);
    }
    OptionMakeConfCounts(option, origins, 0,
      if option.status == AlwaysEnabled then 1 else 0,
      if option.status == AlwaysDisabled then 1 else 0);
  }

  lemma MixedMakeConfCounts(option: OptionInfo, origins: map<string, string>, conditionals: nat, sets: nat, unsets: nat)
    requires option.status == Mixed
    requires NeedsOrigins(option) <= origins.Keys
    requires CountsAs(MixedConditionals(option, origins), conditionals, sets, unsets)
    ensures CountsAs(OptionMakeConf(option, origins), conditionals, sets, unsets)
  {
    var lists := PackageListsText(option, true, true);
    var text := option.name + ": mixed status, " + lists;
    CommentLineCounts(text);
    CountsAsAppend([Comment(text)], MixedConditionals(option, origins), 0, 0, 0, conditionals, sets, unsets);
    OptionMakeConfCounts(option, origins, conditionals, sets, unsets);
  }

  /** A mixed option enabled in a single package and disabled in several
      gets one negated conditional that unsets it everywhere except at that
      package's origin. */
  lemma SingleOnException(option: OptionInfo, origins: map<string, string>)
    requires option.status == Mixed && SingleOn(option)
    requires NeedsOrigins(option) <= origins.Keys
    ensures exists p :: (option.packagesOn == {p} && p in origins
      && MixedConditionals(option, origins) == Conditional("!=", origins[p], UnsetDirective, option.name))
    ensures CountsAs(OptionMakeConf(option, origins), 1, 0, 1)
  {
    var p := TheOnly(option.packagesOn);
    ConditionalCounts("!=", origins[p], UnsetDirective, option.name);
    MixedMakeConfCounts(option, origins, 1, 0, 1);
  }

  /** Symmetrically, a mixed option disabled in a single package and
      enabled in several gets one negated conditional that sets it. */
  lemma SingleOffException(option: OptionInfo, origins: map<string, string>)
    requires option.status == Mixed && SingleOff(option)
    requires NeedsOrigins(option) <= origins.Keys
    ensures exists p :: (option.packagesOff == {p} && p in origins
      && MixedConditionals(option, origins) == Conditional("!=", origins[p], SetDirective, option.name))
    ensures CountsAs(OptionMakeConf(option, origins), 1, 1, 0)
  {
    var p := TheOnly(option.packagesOff);
    assert !SingleOn(option);
    ConditionalCounts("!=", origins[p], SetDirective, option.name);
    MixedMakeConfCounts(option, origins, 1, 1, 0);
  }

  /** The per-package loop prints, for the i-th package, a test against its
      origin followed by the directive, and nothing else counted. */
  lemma {:induction false} PerPackageShape(packages: seq<string>, directive: string, name: string, origins: map<string, string>)
    requires forall i :: 0 <= i < |packages| ==> packages[i] in origins
    requires directive == SetDirective || directive == UnsetDirective
    ensures var lines := PerPackage(packages, directive, name, origins);
      && |lines| == 3 * |packages|
      && (forall i :: 0 <= i < |packages| ==>
            lines[3 * i] == TestLine("==", origins[packages[i]]) && lines[3 * i + 1] == Directive(directive, name))
      && CountsAs(lines, |packages|,
                  if directive == SetDirective then |packages| else 0,
                  if directive == UnsetDirective then |packages| else 0)
  {
    if packages != [] {
      var n := |packages| - 1;
      var init := packages[..n];
      var front := PerPackage(init, directive, name, origins);
      var block := Conditional("==", origins[packages[n]], directive, name);
      PerPackageShape(init, directive, name, origins);
      ConditionalCounts("==", origins[packages[n]], directive, name);
      CountsAsAppend(front, block, n,
                     if directive == SetDirective then n else 0,
                     if directive == UnsetDirective then n else 0,
                     1,
                     if directive == SetDirective then 1 else 0,
                     if directive == UnsetDirective then 1 else 0);
      var lines := front + block;
      forall i | 0 <= i < |packages|
        ensures lines[3 * i] == TestLine("==", origins[packages[i]]) && lines[3 * i + 1] == Directive(directive, name)
      {
        if i < n {
          assert packages[i] == init[i];
        }
      }
    }
  }

  /** Some line of `lines` is `test`, directly followed by `directive`. */
  predicate HasConditional(lines: seq<string>, test: string, directive: string)
  {
    exists i :: 0 <= i < |lines| - 1 && lines[i] == test && lines[i + 1] == directive
  }

  /** Every listed package has its test line, directly followed by the
      directive. */
  lemma PerPackageMentions(packages: set<string>, directive: string, name: string, origins: map<string, string>)
    requires packages <= origins.Keys
    requires directive == SetDirective || directive == UnsetDirective
    ensures var lines := PerPackage(SortedElems(packages), directive, name, origins);
      forall p :: p in packages ==> HasConditional(lines, TestLine("==", origins[p]), Directive(directive, name))
  {
    var sorted := SortedElems(packages);
    var lines := PerPackage(sorted, directive, name, origins);
    PerPackageShape(sorted, directive, name, origins);
    forall p | p in packages
      ensures HasConditional(lines, TestLine("==", origins[p]), Directive(directive, name))
    {
      var k :| 0 <= k < |sorted| && sorted[k] == p;
      assert 0 <= 3 * k < |lines| - 1;
      assert lines[3 * k] == TestLine("==", origins[p]) && lines[3 * k + 1] == Directive(directive, name);
    }
  }

  /** Any other mixed option gets an `==` conditional per overridden
      package: `OPTIONS_SET+=` at the origin of each package that turned it
      on against its default, `OPTIONS_UNSET+=` at each that turned it off. */
  lemma PerPackageOverrides(option: OptionInfo, origins: map<string, string>)
    requires option.status == Mixed && !SingleOn(option) && !SingleOff(option)
    requires NeedsOrigins(option) <= origins.Keys
    ensures var lines := MixedConditionals(option, origins);
      && (forall p :: p in option.packagesOverriddenOn ==> HasConditional(lines, TestLine("==", origins[p]), Directive(SetDirective, option.name)))
      && (forall p :: p in option.packagesOverriddenOff ==> HasConditional(lines, TestLine("==", origins[p]), Directive(UnsetDirective, option.name)))
  {
    var onLines := PerPackage(SortedElems(option.packagesOverriddenOn), SetDirective, option.name, origins);
    var offLines := PerPackage(SortedElems(option.packagesOverriddenOff), UnsetDirective, option.name, origins);
    var lines := MixedConditionals(option, origins);
    assert lines == onLines + offLines;
    PerPackageMentions(option.packagesOverriddenOn, SetDirective, option.name, origins);
    PerPackageMentions(option.packagesOverriddenOff, UnsetDirective, option.name, origins);
    forall p | p in option.packagesOverriddenOn
      ensures HasConditional(lines, TestLine("==", origins[p]), Directive(SetDirective, option.name))
    {
      HasConditionalAppend(onLines, offLines, TestLine("==", origins[p]), Directive(SetDirective, option.name));
    }
    forall p | p in option.packagesOverriddenOff
      ensures HasConditional(lines, TestLine("==", origins[p]), Directive(UnsetDirective, option.name))
    {
      HasConditionalAppend(onLines, offLines, TestLine("==", origins[p]), Directive(UnsetDirective, option.name));
    }
  }

  /** ... and no other conditional: one test and one directive per
      overridden package. */
  lemma PerPackageCounts(option: OptionInfo, origins: map<string, string>)
    requires option.status == Mixed && !SingleOn(option) && !SingleOff(option)
    requires NeedsOrigins(option) <= origins.Keys
    ensures CountsAs(OptionMakeConf(option, origins),
                     |option.packagesOverriddenOn| + |option.packagesOverriddenOff|,
                     |option.packagesOverriddenOn|, |option.packagesOverriddenOff|)
  {
    var ons := SortedElems(option.packagesOverriddenOn);
    var offs := SortedElems(option.packagesOverriddenOff);
    var onLines := PerPackage(ons, SetDirective, option.name, origins);
    var offLines := PerPackage(offs, UnsetDirective, option.name, origins);
    assert MixedConditionals(option, origins) == onLines + offLines;
    PerPackageShape(ons, SetDirective, option.name, origins);
    PerPackageShape(offs, UnsetDirective, option.name, origins);
    CountsAsAppend(onLines, offLines, |ons|, |ons|, 0, |offs|, 0, |offs|);
    MixedMakeConfCounts(option, origins, |ons| + |offs|, |ons|, |offs|);
  }

  /** A conditional in either half of a concatenation is one of the whole. */
  lemma HasConditionalAppend(front: seq<string>, back: seq<string>, test: string, directive: string)
    ensures HasConditional(front, test, directive) ==> HasConditional(front + back, test, directive)
    ensures HasConditional(back, test, directive) ==> HasConditional(front + back, test, directive)
  {
    var lines := front + back;
    if HasConditional(front, test, directive) {
      var i :| 0 <= i < |front| - 1 && front[i] == test && front[i + 1] == directive;
      assert lines[i] == front[i] && lines[i + 1] == front[i + 1];
    }
    if HasConditional(back, test, directive) {
      var i :| 0 <= i < |back| - 1 && back[i] == test && back[i + 1] == directive;
      assert lines[|front| + i] == back[i] && lines[|front| + i + 1] == back[i + 1];
    }
  }

  /** A fragment without mixed options holds no conditional at all. */
  lemma NoMixedNoConditional(options: seq<OptionInfo>, origins: map<string, string>)
    requires OriginsKnown(options, origins)
    requires forall i :: 0 <= i < |options| ==> options[i].status != Mixed
    ensures CountStarting(MakeConf(options, origins), ConditionalStart) == 0
  {
    var body := MakeConfBody(options, origins);
    NoMixedBody(options, origins);
    CommentLineCounts("options list generated by aggregate_port_options");
    CommentLineCounts("end generated options list");
    var header: seq<string> := [MakeConfHeader];
    var footer: seq<string> := [MakeConfFooter];
    CountStartingAppend(header, body, ConditionalStart);
    CountStartingAppend(header + body, footer, ConditionalStart);
  }

  lemma {:induction false} NoMixedBody(options: seq<OptionInfo>, origins: map<string, string>)
    requires OriginsKnown(options, origins)
    requires forall i :: 0 <= i < |options| ==> options[i].status != Mixed
    ensures CountStarting(MakeConfBody(options, origins), ConditionalStart) == 0
  {
    if options != [] {
      var n := |options| - 1;
      MakeConfBodyStep(options, origins, n);
      assert options[..n + 1] == options;
      NoMixedBody(options[..n], origins);
      UnmixedHasNoConditional(options[n], origins);
      CountStartingAppend(MakeConfBody(options[..n], origins), OptionMakeConf(options[n], origins), ConditionalStart);
    }
  }

  // ---------------------------------------------------------------------
  // The origin table the entry point passes to `print_make_conf`

  /** `{package.name: package.origin for package in packages}`: a later
      record with the same name replaces an earlier one. */
  function PackageToOrigin(packages: seq<PackageInfo>): map<string, string>
  {
    if packages == [] then map[]
    else
      var last := packages[|packages| - 1];
      PackageToOrigin(packages[..|packages| - 1])[last.name := last.origin]
  }

  /** The table has an entry for every package name, and, when names are
      unique, that entry is the package's origin. */
  lemma {:induction false} PackageToOriginEntries(packages: seq<PackageInfo>)
    ensures PackageToOrigin(packages).Keys == set p | p in packages :: p.name
    ensures UniqueNames(packages) ==>
      forall p :: p in packages ==> PackageToOrigin(packages)[p.name] == p.origin
  {
    if packages != [] {
      var n := |packages| - 1;
      var init, last := packages[..n], packages[n];
      assert packages == init + [last];
      PackageToOriginEntries(init);
      assert forall p :: p in packages <==> p in init || p == last;
      if UniqueNames(packages) {
        assert UniqueNames(init);
      }
    }
  }

  /** The packages a conditional may name are among the option's on, off
      and default packages. */
  lemma NeedsOriginsWithin(option: OptionInfo)
    ensures NeedsOrigins(option) <= option.packagesOn + option.packagesOff
                                    + option.packagesOverriddenOn + option.packagesOverriddenOff
  {
  }

  /** Every package the make.conf conditionals name has an origin in the
      table built from the same records, so `print_make_conf` never misses
      a key on the output of `iterate_options`. */
  lemma AggregatedOriginsKnown(packages: seq<PackageInfo>)
    ensures OriginsKnown(Aggregated(packages), PackageToOrigin(packages))
  {
    var r := Aggregated(packages);
    var names := set p | p in packages :: p.name;
    PackageToOriginEntries(packages);
    AggregatedNames(packages);
    forall i | 0 <= i < |r|
      ensures NeedsOrigins(r[i]) <= names
    {
      ClassifiedWithin(packages, r[i].name, names);
      NeedsOriginsWithin(r[i]);
    }
  }

  lemma ClassifiedWithin(packages: seq<PackageInfo>, option: string, names: set<string>)
    requires names == set p | p in packages :: p.name
    ensures var info := Classify(option, ReferenceTally(packages, option));
      info.packagesOn + info.packagesOff + info.packagesOverriddenOn + info.packagesOverriddenOff <= names
  {
    var t := ReferenceTally(packages, option);
    forall role ensures NamesIn(packages, option, role) <= names {
      forall n | n in NamesIn(packages, option, role) ensures n in names {
        var p :| p in packages && Plays(p, option, role) && p.name == n;
      }
    }
    OverridePartition(option, t);
    assert t.packagesDefault == NamesIn(packages, option, Default);
  }
}
