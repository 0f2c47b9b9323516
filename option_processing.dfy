/** Aggregating the options of all packages (`iterate_options`): a first
    pass files every package under each option it declares or the ports tree
    makes default, a second pass classifies every option in name order. */
module OptionProcessing {
  import opened Wrappers
  import opened StringOrder
  import opened PackageProcessing

  datatype OptionStatus = Unchanged | AlwaysEnabled | AlwaysDisabled | Mixed

  /** The packages filed under one option by the first pass
      (`_OptionInfoBase`). */
  datatype OptionTally = OptionTally(
    packagesOn: set<string>,
    packagesOff: set<string>,
    packagesDefault: set<string>,
    packagesDefaultBad: set<string>)

  const NoPackages := OptionTally({}, {}, {}, {})

  /** One classified option (`OptionInfo`). */
  datatype OptionInfo = OptionInfo(
    name: string,
    status: OptionStatus,
    packagesOn: set<string>,
    packagesOff: set<string>,
    packagesDefault: set<string>,
    packagesDefaultBad: set<string>,
    packagesOverriddenOn: set<string>,
    packagesOverriddenOff: set<string>,
    packagesLeftOn: set<string>,
    packagesLeftOff: set<string>)

  /** `options[option]` on the `defaultdict`: an option not seen yet has an
      empty tally. */
  function TallyOf(options: map<string, OptionTally>, option: string): OptionTally
  {
    if option in options then options[option] else NoPackages
  }

  /** Package `p` filed under an option it declares, by its state. */
  function FileState(t: OptionTally, p: PackageInfo, option: string): OptionTally
    requires option in p.options
  {
    if p.options[option] then t.(packagesOn := t.packagesOn + {p.name})
    else t.(packagesOff := t.packagesOff + {p.name})
  }

  /** Package `p` filed under one of its default options, as a declared
      default or as drift when it does not declare the option. */
  function FileDefault(t: OptionTally, p: PackageInfo, option: string): OptionTally
  {
    if option in p.options then t.(packagesDefault := t.packagesDefault + {p.name})
    else t.(packagesDefaultBad := t.packagesDefaultBad + {p.name})
  }

  /** What package `p` adds to the tally of `option`. */
  function Contribution(t: OptionTally, p: PackageInfo, option: string): OptionTally
  {
    var t' := if option in p.options then FileState(t, p, option) else t;
    if option in p.defaultOptions then FileDefault(t', p, option) else t'
  }

  /** The tallies after package `p` has been filed. */
  function AddPackage(options: map<string, OptionTally>, p: PackageInfo): map<string, OptionTally>
  {
    map option | option in options.Keys + p.options.Keys + p.defaultOptions
      :: Contribution(TallyOf(options, option), p, option)
  }

  /** The tallies after the first inner loop for `p`. */
  function AfterStates(options: map<string, OptionTally>, p: PackageInfo): map<string, OptionTally>
  {
    map option | option in options.Keys + p.options.Keys
      :: if option in p.options then FileState(TallyOf(options, option), p, option) else options[option]
  }

  /** The tallies after the second inner loop for `p`. */
  function AfterDefaults(options: map<string, OptionTally>, p: PackageInfo): map<string, OptionTally>
  {
    map option | option in options.Keys + p.defaultOptions
      :: if option in p.defaultOptions then FileDefault(TallyOf(options, option), p, option) else options[option]
  }

  /** The tallies after the first pass over `packages`. */
  function Accumulated(packages: seq<PackageInfo>): map<string, OptionTally>
  {
    if packages == [] then map[]
    else AddPackage(Accumulated(packages[..|packages| - 1]), packages[|packages| - 1])
  }

  /** The second pass for one option: its status by the ordered chain of
      tests, and the four override sets. */
  function Classify(name: string, t: OptionTally): (info: OptionInfo)
    ensures info.name == name
    ensures info.packagesOn == t.packagesOn && info.packagesOff == t.packagesOff
    ensures info.packagesDefault == t.packagesDefault && info.packagesDefaultBad == t.packagesDefaultBad
    ensures info.status == Unchanged <==> t.packagesOn == t.packagesDefault
    ensures info.status == AlwaysEnabled <==> t.packagesOn != t.packagesDefault && t.packagesOff == {}
    ensures info.status == AlwaysDisabled <==>
      t.packagesOn != t.packagesDefault && t.packagesOff != {} && t.packagesOn == {}
    ensures info.status == Mixed <==>
      t.packagesOn != t.packagesDefault && t.packagesOff != {} && t.packagesOn != {}
    ensures info.status == Unchanged ==> info.packagesOverriddenOn == {} && info.packagesOverriddenOff == {}
  {
    var status :=
      if t.packagesOn == t.packagesDefault then Unchanged
      else if t.packagesOff == {} then AlwaysEnabled
      else if t.packagesOn == {} then AlwaysDisabled
      else Mixed;
    OptionInfo(name, status, t.packagesOn, t.packagesOff, t.packagesDefault, t.packagesDefaultBad,
      t.packagesOn - t.packagesDefault,
      t.packagesDefault - t.packagesOn,
      t.packagesDefault * t.packagesOn,
      t.packagesOff - t.packagesDefault)
  }

  /** The override sets split the packages: overridden-on and left-on
      split the on packages, overridden-off and left-on split the default
      packages, and, when on and off are disjoint and cover the defaults,
      overridden-off and left-off split the off packages. */
  lemma OverridePartition(name: string, t: OptionTally)
    ensures var info := Classify(name, t);
      && info.packagesOverriddenOn !! info.packagesLeftOn
      && info.packagesOverriddenOn + info.packagesLeftOn == t.packagesOn
      && info.packagesOverriddenOff !! info.packagesLeftOn
      && info.packagesOverriddenOff + info.packagesLeftOn == t.packagesDefault
      && info.packagesOverriddenOff !! info.packagesLeftOff
      && (t.packagesOn !! t.packagesOff && t.packagesDefault <= t.packagesOn + t.packagesOff ==>
            info.packagesOverriddenOff + info.packagesLeftOff == t.packagesOff)
  {
  }

  /** The second pass: one classified option per tallied name, by
      ascending name. */
  function Classified(options: map<string, OptionTally>): seq<OptionInfo>
  {
    var names := SortedElems(options.Keys);
    seq(|names|, i requires 0 <= i < |names| => Classify(names[i], options[names[i]]))
  }

  /** `list(iterate_options(packages))`. */
  function Aggregated(packages: seq<PackageInfo>): seq<OptionInfo>
  {
    Classified(Accumulated(packages))
  }

  /** The first inner loop: file `p` under each option it declares. */
  method FileStates(options: map<string, OptionTally>, p: PackageInfo) returns (r: map<string, OptionTally>)
    ensures r == AfterStates(options, p)
  {
    r := options;
    var todo := p.options.Keys;
    while todo != {}
      invariant todo <= p.options.Keys
      invariant forall o :: o in r <==> o in options || o in p.options.Keys - todo
      invariant forall o :: o in r ==>
        r[o] == if o in p.options.Keys - todo then FileState(TallyOf(options, o), p, o) else options[o]
      decreases todo
    {
      var option :| option in todo;
      var t := TallyOf(r, option);
      if p.options[option] {
        r := r[option := t.(packagesOn := t.packagesOn + {p.name})];
      } else {
        r := r[option := t.(packagesOff := t.packagesOff + {p.name})];
      }
      todo := todo - {option};
    }
  }

  /** The second inner loop: file `p` under each of its default options. */
  method FileDefaults(options: map<string, OptionTally>, p: PackageInfo) returns (r: map<string, OptionTally>)
    ensures r == AfterDefaults(options, p)
  {
    r := options;
    var todo := p.defaultOptions;
    while todo != {}
      invariant todo <= p.defaultOptions
      invariant forall o :: o in r <==> o in options || o in p.defaultOptions - todo
      invariant forall o :: o in r ==>
        r[o] == if o in p.defaultOptions - todo then FileDefault(TallyOf(options, o), p, o) else options[o]
      decreases todo
    {
      var option :| option in todo;
      var t := TallyOf(r, option);
      if option in p.options {
        r := r[option := t.(packagesDefault := t.packagesDefault + {p.name})];
      } else {
        r := r[option := t.(packagesDefaultBad := t.packagesDefaultBad + {p.name})];
      }
      todo := todo - {option};
    }
  }

  lemma AddPackageInTwoLoops(options: map<string, OptionTally>, p: PackageInfo)
    ensures AfterDefaults(AfterStates(options, p), p) == AddPackage(options, p)
  {
    var m := AfterStates(options, p);
    assert forall o :: TallyOf(m, o) == if o in p.options then FileState(TallyOf(options, o), p, o) else TallyOf(options, o);
  }

  /** The body of the outer loop of the first pass. */
  method CountPackage(options: map<string, OptionTally>, p: PackageInfo) returns (r: map<string, OptionTally>)
    ensures r == AddPackage(options, p)
  {
    r := FileStates(options, p);
    r := FileDefaults(r, p);
    AddPackageInTwoLoops(options, p);
  }

  /** The second pass: the loop over `sorted(options.items())`. */
  method ClassifyAll(options: map<string, OptionTally>) returns (result: seq<OptionInfo>)
    ensures result == Classified(options)
  {
    var names := SortedElems(options.Keys);
    result := [];
    for j := 0 to |names|
      invariant |result| == j
      invariant forall k :: 0 <= k < j ==> result[k] == Classify(names[k], options[names[k]])
    {
      var info := Classify(names[j], options[names[j]]);
      result := result + [info];
    }
  }

  /** `list(iterate_options(packages))`: the first pass over the packages,
      then the second pass over the option names in ascending order. */
  method IterateOptions(packages: seq<PackageInfo>) returns (result: seq<OptionInfo>)
    ensures result == Aggregated(packages)
  {
    var options: map<string, OptionTally> := map[];
    for i := 0 to |packages|
      invariant options == Accumulated(packages[..i])
    {
      assert packages[..i + 1][..i] == packages[..i];
      options := CountPackage(options, packages[i]);
    }
    assert packages[..|packages|] == packages;
    result := ClassifyAll(options);
  }

  /** The ways a package can be filed under an option. */
  datatype Role = On | Off | Default | DefaultBad

  predicate Plays(p: PackageInfo, option: string, role: Role)
  {
    match role
    case On => option in p.options && p.options[option]
    case Off => option in p.options && !p.options[option]
    case Default => option in p.defaultOptions && option in p.options
    case DefaultBad => option in p.defaultOptions && option !in p.options
  }

  /** The names of the packages that play `role` for `option`. */
  ghost function NamesIn(packages: seq<PackageInfo>, option: string, role: Role): set<string>
  {
    set p | p in packages && Plays(p, option, role) :: p.name
  }

  /** The tally of an option stated directly over the whole package list. */
  ghost function ReferenceTally(packages: seq<PackageInfo>, option: string): OptionTally
  {
    OptionTally(NamesIn(packages, option, On), NamesIn(packages, option, Off),
                NamesIn(packages, option, Default), NamesIn(packages, option, DefaultBad))
  }

  /** The option names some package declares or has among its defaults. */
  ghost function Mentioned(packages: seq<PackageInfo>): set<string>
  {
    set p, option | p in packages && option in p.options.Keys + p.defaultOptions :: option
  }

  /** No two different records share a package name (true of the package
      database). */
  ghost predicate UniqueNames(packages: seq<PackageInfo>)
  {
    forall p, q :: p in packages && q in packages && p.name == q.name ==> p == q
  }

  lemma NamesInSnoc(init: seq<PackageInfo>, last: PackageInfo, option: string, role: Role)
    ensures NamesIn(init + [last], option, role)
         == NamesIn(init, option, role) + (if Plays(last, option, role) then {last.name} else {})
  {
    var ps := init + [last];
    assert forall p :: p in ps <==> p in init || p == last;
    forall n | n in NamesIn(ps, option, role)
      ensures n in NamesIn(init, option, role) + (if Plays(last, option, role) then {last.name} else {})
    {
      var p :| p in ps && Plays(p, option, role) && p.name == n;
      if p != last { assert p in init; }
    }
  }

  lemma MentionedSnoc(init: seq<PackageInfo>, last: PackageInfo)
    ensures Mentioned(init + [last]) == Mentioned(init) + last.options.Keys + last.defaultOptions
  {
    var ps := init + [last];
    assert forall p :: p in ps <==> p in init || p == last;
    forall o | o in Mentioned(ps) ensures o in Mentioned(init) + last.options.Keys + last.defaultOptions {
      var p :| p in ps && o in p.options.Keys + p.defaultOptions;
      if p != last { assert p in init; }
    }
    forall o | o in Mentioned(init) ensures o in Mentioned(ps) {
      var p :| p in init && o in p.options.Keys + p.defaultOptions;
      assert p in ps;
    }
    forall o | o in last.options.Keys + last.defaultOptions ensures o in Mentioned(ps) {
      assert last in ps;
    }
  }

  /** Filing one more package adds its contribution to the tally of each
      option, and tallies the options it mentions. */
  lemma AddPackageTally(options: map<string, OptionTally>, p: PackageInfo, option: string)
    ensures option in AddPackage(options, p) <==>
      option in options || option in p.options || option in p.defaultOptions
    ensures TallyOf(AddPackage(options, p), option) == Contribution(TallyOf(options, option), p, option)
  {
  }

  /** The contribution of one more package is the reference tally of the
      longer list. */
  lemma ContributionTally(init: seq<PackageInfo>, last: PackageInfo, option: string)
    ensures Contribution(ReferenceTally(init, option), last, option) == ReferenceTally(init + [last], option)
  {
    NamesInSnoc(init, last, option, On);
    NamesInSnoc(init, last, option, Off);
    NamesInSnoc(init, last, option, Default);
    NamesInSnoc(init, last, option, DefaultBad);
  }

  /** The first pass computes the reference tally of every option, and
      tallies exactly the options some package mentions. */
  lemma {:induction false} AccumulatedTally(packages: seq<PackageInfo>, option: string)
    ensures option in Accumulated(packages) <==> option in Mentioned(packages)
    ensures TallyOf(Accumulated(packages), option) == ReferenceTally(packages, option)
    decreases |packages|
  {
    if packages == [] {
      assert Mentioned(packages) == {};
      assert ReferenceTally(packages, option) == NoPackages;
    } else {
      var n := |packages| - 1;
      var init, last := packages[..n], packages[n];
      assert packages == init + [last];
      AccumulatedTally(init, option);
      AddPackageTally(Accumulated(init), last, option);
      MentionedSnoc(init, last);
      ContributionTally(init, last, option);
    }
  }

  /** The first pass is a union of per-package contributions: reordering or
      repeating the records changes nothing. */
  lemma AccumulatedOrderIndependent(ps: seq<PackageInfo>, qs: seq<PackageInfo>)
    requires forall p :: p in ps <==> p in qs
    ensures Accumulated(ps) == Accumulated(qs)
  {
    forall o ensures o in Accumulated(ps) <==> o in Accumulated(qs) {
      AccumulatedTally(ps, o);
      AccumulatedTally(qs, o);
      assert Mentioned(ps) == Mentioned(qs);
    }
    forall o | o in Accumulated(ps) ensures Accumulated(ps)[o] == Accumulated(qs)[o] {
      AccumulatedTally(ps, o);
      AccumulatedTally(qs, o);
      assert forall r :: NamesIn(ps, o, r) == NamesIn(qs, o, r);
    }
  }

  /** The result depends only on the multiset of package records. */
  lemma AggregatedOrderIndependent(ps: seq<PackageInfo>, qs: seq<PackageInfo>)
    requires multiset(ps) == multiset(qs)
    ensures Aggregated(ps) == Aggregated(qs)
  {
    assert forall p :: p in ps <==> p in multiset(ps);
    assert forall p :: p in qs <==> p in multiset(qs);
    AccumulatedOrderIndependent(ps, qs);
  }

  /** With unique package names, a package is filed under an option as on,
      off, default or drift exactly when its record says so. */
  lemma TallyMembership(packages: seq<PackageInfo>, option: string, p: PackageInfo)
    requires UniqueNames(packages) && p in packages
    ensures var t := TallyOf(Accumulated(packages), option);
      && (p.name in t.packagesOn <==> option in p.options && p.options[option])
      && (p.name in t.packagesOff <==> option in p.options && !p.options[option])
      && (p.name in t.packagesDefault <==> option in p.defaultOptions && option in p.options)
      && (p.name in t.packagesDefaultBad <==> option in p.defaultOptions && option !in p.options)
  {
    AccumulatedTally(packages, option);
    forall role ensures p.name in NamesIn(packages, option, role) <==> Plays(p, option, role) {
      if p.name in NamesIn(packages, option, role) {
        var q :| q in packages && Plays(q, option, role) && q.name == p.name;
      }
    }
    assert p.name in NamesIn(packages, option, On) <==> Plays(p, option, On);
    assert p.name in NamesIn(packages, option, Off) <==> Plays(p, option, Off);
    assert p.name in NamesIn(packages, option, Default) <==> Plays(p, option, Default);
    assert p.name in NamesIn(packages, option, DefaultBad) <==> Plays(p, option, DefaultBad);
  }

  /** The names of the packages that declare `option`. */
  ghost function Declaring(packages: seq<PackageInfo>, option: string): set<string>
  {
    set p | p in packages && option in p.options :: p.name
  }

  /** With unique package names: on and off split the declaring packages,
      default packages declare the option and drift packages do not. */
  lemma TallyPartition(packages: seq<PackageInfo>, option: string)
    requires UniqueNames(packages)
    ensures var t := TallyOf(Accumulated(packages), option);
      && t.packagesOn !! t.packagesOff
      && t.packagesOn + t.packagesOff == Declaring(packages, option)
      && t.packagesDefault <= Declaring(packages, option)
      && t.packagesDefaultBad !! Declaring(packages, option)
      && t.packagesDefault !! t.packagesDefaultBad
  {
    var t := TallyOf(Accumulated(packages), option);
    AccumulatedTally(packages, option);
    forall p | p in packages ensures (p.name in t.packagesOn || p.name in t.packagesOff) <==> option in p.options
      ensures !(p.name in t.packagesOn && p.name in t.packagesOff)
      ensures p.name in t.packagesDefault ==> option in p.options
      ensures p.name in t.packagesDefaultBad ==> option !in p.options
    {
      TallyMembership(packages, option, p);
    }
  }

  lemma AccumulatedKeys(packages: seq<PackageInfo>)
    ensures Accumulated(packages).Keys == Mentioned(packages)
  {
    forall o ensures o in Accumulated(packages) <==> o in Mentioned(packages) {
      AccumulatedTally(packages, o);
    }
  }

  /** Entry `i` of the second pass is the `i`-th name in ascending order,
      classified from its tally. */
  lemma ClassifiedEntries(options: map<string, OptionTally>)
    ensures var names := SortedElems(options.Keys);
      var r := Classified(options);
      && |r| == |names|
      && (forall i :: 0 <= i < |r| ==> r[i].name == names[i] && r[i] == Classify(names[i], options[names[i]]))
  {
  }

  /** The second pass lists every tallied option once, in strictly
      ascending name order, classified from its own tally. */
  lemma ClassifiedShape(options: map<string, OptionTally>)
    ensures var r := Classified(options);
      && |r| == |options|
      && (forall i, j :: 0 <= i < j < |r| ==> Less(r[i].name, r[j].name))
      && (forall o :: o in options <==> exists i :: 0 <= i < |r| && r[i].name == o)
      && (forall i :: 0 <= i < |r| ==> r[i].name in options && r[i] == Classify(r[i].name, options[r[i].name]))
  {
    var names := SortedElems(options.Keys);
    var r := Classified(options);
    ClassifiedEntries(options);
    assert |options.Keys| == |options|;
    forall o | o in options ensures exists i :: 0 <= i < |r| && r[i].name == o {
      var i :| 0 <= i < |names| && names[i] == o;
      assert r[i].name == o;
    }
  }

  /** The output holds one entry per option name some package declares or
      has among its defaults, in strictly ascending name order, each
      classified from the reference tally of its option. */
  lemma AggregatedNames(packages: seq<PackageInfo>)
    ensures var r := Aggregated(packages);
      && |r| == |Mentioned(packages)|
      && (forall i, j :: 0 <= i < j < |r| ==> Less(r[i].name, r[j].name))
      && (forall o :: o in Mentioned(packages) <==> exists i :: 0 <= i < |r| && r[i].name == o)
      && (forall i :: 0 <= i < |r| ==> r[i] == Classify(r[i].name, ReferenceTally(packages, r[i].name)))
  {
    var m := Accumulated(packages);
    AccumulatedKeys(packages);
    ClassifiedShape(m);
    var r := Aggregated(packages);
    forall i | 0 <= i < |r| ensures r[i] == Classify(r[i].name, ReferenceTally(packages, r[i].name)) {
      AccumulatedTally(packages, r[i].name);
    }
  }

  /** With unique package names, every output entry splits its packages as
      the override report assumes. */
  lemma AggregatedPartition(packages: seq<PackageInfo>, i: int)
    requires UniqueNames(packages)
    requires 0 <= i < |Aggregated(packages)|
    ensures var info := Aggregated(packages)[i];
      && info.packagesOn !! info.packagesOff
      && info.packagesOn + info.packagesOff == Declaring(packages, info.name)
      && info.packagesDefault <= info.packagesOn + info.packagesOff
      && info.packagesDefault !! info.packagesDefaultBad
      && info.packagesOverriddenOn !! info.packagesLeftOn
      && info.packagesOverriddenOn + info.packagesLeftOn == info.packagesOn
      && info.packagesOverriddenOff !! info.packagesLeftOn
      && info.packagesOverriddenOff + info.packagesLeftOn == info.packagesDefault
      && info.packagesOverriddenOff !! info.packagesLeftOff
      && info.packagesOverriddenOff + info.packagesLeftOff == info.packagesOff
  {
    var info := Aggregated(packages)[i];
    AggregatedNames(packages);
    AccumulatedTally(packages, info.name);
    TallyPartition(packages, info.name);
    OverridePartition(info.name, ReferenceTally(packages, info.name));
  }

  /** An option that only appears as drift (a default no package declares)
      has no on and no default packages and is therefore unchanged. */
  lemma DriftOnlyIsUnchanged(packages: seq<PackageInfo>, option: string)
    requires option in Mentioned(packages)
    requires forall p :: p in packages ==> option !in p.options
    ensures var r := Aggregated(packages);
      exists i :: 0 <= i < |r| && r[i].name == option && r[i].status == Unchanged
        && r[i].packagesOn == {} && r[i].packagesDefault == {} && r[i].packagesDefaultBad != {}
  {
    var r := Aggregated(packages);
    AggregatedNames(packages);
    var i :| 0 <= i < |r| && r[i].name == option;
    var p, o :| p in packages && o in p.options.Keys + p.defaultOptions && o == option;
    assert p.name in NamesIn(packages, option, DefaultBad);
    assert NamesIn(packages, option, On) == {};
    assert NamesIn(packages, option, Default) == {};
  }

  /** When the packages mention a single option, the output is that
      option classified from its reference tally. */
  lemma SingleOptionAggregated(packages: seq<PackageInfo>, option: string)
    requires Mentioned(packages) == {option}
    ensures |Aggregated(packages)| == 1
    ensures Aggregated(packages)[0] == Classify(option, ReferenceTally(packages, option))
  {
    AggregatedNames(packages);
    var r := Aggregated(packages);
    assert r[0].name in Mentioned(packages);
  }

  /** Two packages declaring `SSL` as a default, `A` with it on and `B`
      with it off: the option is mixed, `B` overrode it off and `A` left it
      on. The three derived sets together are on ∪ default, not
      on ∪ (default − off): `B` is both off and overridden off. */
  lemma SslScenario(a: PackageInfo, b: PackageInfo)
    requires a == PackageInfo("A", "cat/a", None, map["SSL" := true], {"SSL"})
    requires b == PackageInfo("B", "cat/b", None, map["SSL" := false], {"SSL"})
    ensures var r := Aggregated([a, b]);
      && |r| == 1 && r[0].name == "SSL" && r[0].status == Mixed
      && r[0].packagesOverriddenOn == {} && r[0].packagesOverriddenOff == {"B"}
      && r[0].packagesLeftOn == {"A"} && r[0].packagesLeftOff == {}
      && r[0].packagesOverriddenOn + r[0].packagesOverriddenOff + r[0].packagesLeftOn
         != r[0].packagesOn + (r[0].packagesDefault - r[0].packagesOff)
  {
    SslMentioned(a, b);
    SingleOptionAggregated([a, b], "SSL");
    SslTally(a, b);
  }

  lemma SslMentioned(a: PackageInfo, b: PackageInfo)
    requires a == PackageInfo("A", "cat/a", None, map["SSL" := true], {"SSL"})
    requires b == PackageInfo("B", "cat/b", None, map["SSL" := false], {"SSL"})
    ensures Mentioned([a, b]) == {"SSL"}
  {
    var ps := [a, b];
    assert a in ps && "SSL" in a.options.Keys + a.defaultOptions;
    forall o | o in Mentioned(ps) ensures o == "SSL" {
      var p :| p in ps && o in p.options.Keys + p.defaultOptions;
      assert p == a || p == b;
    }
  }

  lemma SslTally(a: PackageInfo, b: PackageInfo)
    requires a == PackageInfo("A", "cat/a", None, map["SSL" := true], {"SSL"})
    requires b == PackageInfo("B", "cat/b", None, map["SSL" := false], {"SSL"})
    ensures ReferenceTally([a, b], "SSL") == OptionTally({"A"}, {"B"}, {"A", "B"}, {})
  {
    var ps := [a, b];
    assert forall p :: p in ps <==> p == a || p == b;
    assert Plays(a, "SSL", On) && !Plays(b, "SSL", On);
    assert !Plays(a, "SSL", Off) && Plays(b, "SSL", Off);
    assert Plays(a, "SSL", Default) && Plays(b, "SSL", Default);
    assert !Plays(a, "SSL", DefaultBad) && !Plays(b, "SSL", DefaultBad);
  }

  /** One package `C` with `FOO` on whose recipe has no defaults: the
      option is enabled everywhere and `C` overrode it on. */
  lemma FooScenario(c: PackageInfo)
    requires c == PackageInfo("C", "cat/c", None, map["FOO" := true], {})
    ensures var r := Aggregated([c]);
      && |r| == 1 && r[0].name == "FOO" && r[0].status == AlwaysEnabled
      && r[0].packagesOverriddenOn == {"C"} && r[0].packagesLeftOn == {}
  {
    FooMentioned(c);
    SingleOptionAggregated([c], "FOO");
    FooTally(c);
  }

  lemma FooMentioned(c: PackageInfo)
    requires c == PackageInfo("C", "cat/c", None, map["FOO" := true], {})
    ensures Mentioned([c]) == {"FOO"}
  {
    var ps := [c];
    assert c in ps && "FOO" in c.options.Keys + c.defaultOptions;
    forall o | o in Mentioned(ps) ensures o == "FOO" {
      var p :| p in ps && o in p.options.Keys + p.defaultOptions;
      assert p == c;
    }
  }

  lemma FooTally(c: PackageInfo)
    requires c == PackageInfo("C", "cat/c", None, map["FOO" := true], {})
    ensures ReferenceTally([c], "FOO") == OptionTally({"C"}, {}, {}, {})
  {
    var ps := [c];
    assert forall p :: p in ps <==> p == c;
    assert Plays(c, "FOO", On) && !Plays(c, "FOO", Off);
    assert !Plays(c, "FOO", Default) && !Plays(c, "FOO", DefaultBad);
  }
}
