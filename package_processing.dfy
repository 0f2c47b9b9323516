/** Building one record per installed package from the answers of the
    package database and of the ports tree (`iterate_packages`). The
    external commands are fields of `Host`: what they print, or how they
    fail. */
module PackageProcessing {
  import opened Wrappers
  import opened Text

  /** What is known of one installed package that declares options. */
  datatype PackageInfo = PackageInfo(
    name: string,
    origin: string,
    flavor: Option<string>,
    options: map<string, bool>,
    defaultOptions: set<string>)

  /** A command that exited with a non-zero status: its command line, the
      status and the first line of its standard error. */
  datatype CallError = CallError(command: string, exitCode: int, diagnostic: string)

  /** Why collection stops: a `pkg` query failed, or a line of its output
      held fewer than two words (the `ValueError` of unpacking
      `line.split(maxsplit=1)`). */
  datatype Error = CallFailed(call: CallError) | NotEnoughValues(line: string)

  /** The external collaborators, as the output lines (or failure) of each
      query. `optionsDefault(origin, env)` is `make -V OPTIONS_DEFAULT` run in
      the port directory of `origin` with environment `env`, its output
      stripped. */
  datatype Host = Host(
    packageList: Result<seq<string>, CallError>,
    optionLines: string -> Result<seq<string>, CallError>,
    annotationLines: string -> Result<seq<string>, CallError>,
    optionsDefault: (string, map<string, string>) -> Result<string, CallError>)

  /** Options counted as enabled by default whenever a package declares them. */
  const AlwaysDefault: seq<string> := ["DOCS", "NLS", "EXAMPLES", "IPV6"]

  /** Every line splits into a key and a value. */
  predicate AllSplit(lines: seq<string>)
  {
    forall i :: 0 <= i < |lines| ==> SplitFirst(lines[i]).Some?
  }

  function Key(line: string): string
    requires SplitFirst(line).Some?
  {
    SplitFirst(line).value.0
  }

  function Value(line: string): string
    requires SplitFirst(line).Some?
  {
    SplitFirst(line).value.1
  }

  /** Line `i` is the last one whose key is `k`. */
  predicate LastWithKey(lines: seq<string>, i: int, k: string)
    requires AllSplit(lines)
  {
    0 <= i < |lines| && Key(lines[i]) == k
    && forall j :: i < j < |lines| ==> Key(lines[j]) != k
  }

  /** `{key: value for key, value in (line.split(maxsplit=1) for line in lines)}`:
      lines are taken in order, so the first line that does not split is the
      error and a later duplicate key replaces an earlier one. */
  function ParsePairs(lines: seq<string>): Result<map<string, string>, Error>
    decreases |lines|
  {
    if lines == [] then Ok(map[])
    else
      match ParsePairs(lines[..|lines| - 1])
      case Err(e) => Err(e)
      case Ok(m) =>
        match SplitFirst(lines[|lines| - 1])
        case None => Err(NotEnoughValues(lines[|lines| - 1]))
        case Some((k, v)) => Ok(m[k := v])
  }

  /** An option is on exactly when its value is the word `on`. */
  function OptionsFrom(pairs: map<string, string>): map<string, bool>
  {
    map k | k in pairs :: pairs[k] == "on"
  }

  /** `annotations.get('flavor')`. */
  function FlavorOf(annotations: map<string, string>): Option<string>
  {
    if "flavor" in annotations then Some(annotations["flavor"]) else None
  }

  /** The environment `make` runs with: only `FLAVOR`, and only when the
      package is a flavor. */
  function FlavorEnv(annotations: map<string, string>): map<string, string>
  {
    if "flavor" in annotations then map["FLAVOR" := annotations["flavor"]] else map[]
  }

  /** The default options as the ports tree reports them or, when `make`
      fails, the options the package has on. */
  function RecipeDefaults(answer: Result<string, CallError>, options: map<string, bool>): set<string>
  {
    match answer
    case Ok(output) => set w | w in Words(output)
    case Err(_) => set k | k in options && options[k]
  }

  /** `defaults` with every option of `AlwaysDefault` the package declares. */
  function WithAlwaysDefault(defaults: set<string>, options: map<string, bool>): set<string>
  {
    defaults + set n | n in AlwaysDefault && n in options
  }

  /** What one line of the package list contributes: an error, nothing (a
      package without options) or a record. */
  function Collect(host: Host, line: string): Result<Option<PackageInfo>, Error>
  {
    match SplitFirst(line)
    case None => Err(NotEnoughValues(line))
    case Some((name, origin)) =>
      match host.optionLines(name)
      case Err(e) => Err(CallFailed(e))
      case Ok(optionLines) =>
        match ParsePairs(optionLines)
        case Err(e) => Err(e)
        case Ok(optionPairs) =>
          var options := OptionsFrom(optionPairs);
          if options == map[] then Ok(None)
          else
            match host.annotationLines(name)
            case Err(e) => Err(CallFailed(e))
            case Ok(annotationLines) =>
              match ParsePairs(annotationLines)
              case Err(e) => Err(e)
              case Ok(annotations) =>
                var answer := host.optionsDefault(origin, FlavorEnv(annotations));
                var defaults := WithAlwaysDefault(RecipeDefaults(answer, options), options);
                Ok(Some(PackageInfo(name, origin, FlavorOf(annotations), options, defaults)))
  }

  function Optional(o: Option<PackageInfo>): seq<PackageInfo>
  {
    if o.Some? then [o.value] else []
  }

  /** What one line contributes, put in front of what the later lines
      contribute; the earlier error wins. */
  function Prepend(first: Result<Option<PackageInfo>, Error>, rest: Result<seq<PackageInfo>, Error>): Result<seq<PackageInfo>, Error>
  {
    match first
    case Err(e) => Err(e)
    case Ok(record) =>
      match rest
      case Err(e) => Err(e)
      case Ok(records) => Ok(Optional(record) + records)
  }

  /** What each line of the package list contributes, line by line. */
  function LineOutcomes(host: Host, lines: seq<string>): seq<Result<Option<PackageInfo>, Error>>
  {
    seq(|lines|, i requires 0 <= i < |lines| => Collect(host, lines[i]))
  }

  /** The records of a sequence of line outcomes, in their order; the first
      error ends the run. */
  function Gather(outcomes: seq<Result<Option<PackageInfo>, Error>>): Result<seq<PackageInfo>, Error>
  {
    if outcomes == [] then Ok([]) else Prepend(outcomes[0], Gather(outcomes[1..]))
  }

  /** The records of the package list lines. */
  function CollectAll(host: Host, lines: seq<string>): Result<seq<PackageInfo>, Error>
  {
    Gather(LineOutcomes(host, lines))
  }

  /** Everything `iterate_packages` yields, as `list()` in the caller sees it. */
  function Collected(host: Host): Result<seq<PackageInfo>, Error>
  {
    match host.packageList
    case Err(e) => Err(CallFailed(e))
    case Ok(lines) => CollectAll(host, lines)
  }

  /** `records` followed by what `r` holds, unless `r` failed. */
  function After(records: seq<PackageInfo>, r: Result<seq<PackageInfo>, Error>): Result<seq<PackageInfo>, Error>
  {
    match r
    case Err(e) => Err(e)
    case Ok(rest) => Ok(records + rest)
  }

  /** The loop that adds the always-default options the package declares. */
  method AddAlwaysDefault(defaults: set<string>, options: map<string, bool>) returns (r: set<string>)
    ensures r == WithAlwaysDefault(defaults, options)
  {
    r := defaults;
    for j := 0 to |AlwaysDefault|
      invariant r == defaults + set n | n in AlwaysDefault[..j] && n in options
    {
      var option := AlwaysDefault[j];
      if option in options {
        r := r + {option};
      }
      assert AlwaysDefault[..j + 1] == AlwaysDefault[..j] + [option];
    }
    assert AlwaysDefault[..|AlwaysDefault|] == AlwaysDefault;
  }

  /** The body of the loop of `iterate_packages` for one line of the
      package list. */
  method CollectOne(host: Host, line: string) returns (r: Result<Option<PackageInfo>, Error>)
    ensures r == Collect(host, line)
  {
    var split := SplitFirst(line);
    if split.None? {
      return Err(NotEnoughValues(line));
    }
    var (name, origin) := split.value;
    var optionAnswer := host.optionLines(name);
    if optionAnswer.Err? {
      return Err(CallFailed(optionAnswer.error));
    }
    var optionPairs := ParsePairs(optionAnswer.value);
    if optionPairs.Err? {
      return Err(optionPairs.error);
    }
    var options := OptionsFrom(optionPairs.value);
    if options == map[] {
      return Ok(None);
    }
    var annotationAnswer := host.annotationLines(name);
    if annotationAnswer.Err? {
      return Err(CallFailed(annotationAnswer.error));
    }
    var annotations := ParsePairs(annotationAnswer.value);
    if annotations.Err? {
      return Err(annotations.error);
    }
    var env := FlavorEnv(annotations.value);
    var defaults := RecipeDefaults(host.optionsDefault(origin, env), options);
    defaults := AddAlwaysDefault(defaults, options);
    return Ok(Some(PackageInfo(name, origin, FlavorOf(annotations.value), options, defaults)));
  }

  lemma AfterStep(records: seq<PackageInfo>, first: Option<PackageInfo>, rest: Result<seq<PackageInfo>, Error>)
    ensures After(records, Prepend(Ok(first), rest)) == After(records + Optional(first), rest)
  {
    if rest.Ok? {
      assert records + (Optional(first) + rest.value) == (records + Optional(first)) + rest.value;
    }
  }

  /** `list(iterate_packages(pkg, ports))`. */
  method IteratePackages(host: Host) returns (r: Result<seq<PackageInfo>, Error>)
    ensures r == Collected(host)
  {
    if host.packageList.Err? {
      return Err(CallFailed(host.packageList.error));
    }
    var lines := host.packageList.value;
    ghost var outcomes := LineOutcomes(host, lines);
    var records: seq<PackageInfo> := [];
    var i := 0;
    assert outcomes[0..] == outcomes;
    assert After([], Gather(outcomes)) == Gather(outcomes) by {
      if Gather(outcomes).Ok? { assert [] + Gather(outcomes).value == Gather(outcomes).value; }
    }
    while i < |lines|
      invariant 0 <= i <= |lines|
      invariant Gather(outcomes) == After(records, Gather(outcomes[i..]))
    {
      assert outcomes[i..][0] == outcomes[i] && outcomes[i..][1..] == outcomes[i + 1..];
      var one := CollectOne(host, lines[i]);
      assert one == outcomes[i];
      if one.Err? {
        return Err(one.error);
      }
      AfterStep(records, one.value, Gather(outcomes[i + 1..]));
      records := records + Optional(one.value);
      i := i + 1;
    }
    assert outcomes[i..] == [];
    assert records + [] == records;
    return Ok(records);
  }

  /** The request the ports tree answers for a package of flavor `flavor`. */
  function EnvFor(flavor: Option<string>): map<string, string>
  {
    if flavor.Some? then map["FLAVOR" := flavor.value] else map[]
  }

  /** `make` gets `FLAVOR=v` exactly when the package is annotated with
      flavor `v`, and an empty environment otherwise; the record keeps the
      same flavor. */
  lemma FlavorEnvMatchesRecord(annotations: map<string, string>)
    ensures FlavorEnv(annotations) == EnvFor(FlavorOf(annotations))
    ensures forall v :: FlavorEnv(annotations) == map["FLAVOR" := v] <==>
                        "flavor" in annotations && annotations["flavor"] == v
    ensures FlavorEnv(annotations) == map[] <==> "flavor" !in annotations
  {
    forall v | FlavorEnv(annotations) == map["FLAVOR" := v]
      ensures "flavor" in annotations && annotations["flavor"] == v
    {
      assert "FLAVOR" in FlavorEnv(annotations);
    }
    if "flavor" in annotations {
      assert "FLAVOR" in FlavorEnv(annotations);
    }
  }

  /** The dict comprehension over `key value` lines fails exactly when some
      line lacks a value, and then names the first such line. */
  lemma {:induction false} ParsePairsFails(lines: seq<string>)
    ensures ParsePairs(lines).Ok? <==> AllSplit(lines)
    ensures ParsePairs(lines).Err? ==>
      exists i :: 0 <= i < |lines| && SplitFirst(lines[i]).None? && AllSplit(lines[..i])
                  && ParsePairs(lines).error == NotEnoughValues(lines[i])
    decreases |lines|
  {
    if lines != [] {
      var n := |lines| - 1;
      var init := lines[..n];
      ParsePairsFails(init);
      if ParsePairs(init).Err? {
        var i :| 0 <= i < n && SplitFirst(init[i]).None? && AllSplit(init[..i])
                 && ParsePairs(init).error == NotEnoughValues(init[i]);
        assert lines[i] == init[i] && lines[..i] == init[..i];
      } else {
        assert lines[..n] == init;
        assert AllSplit(lines) <==> SplitFirst(lines[n]).Some?;
      }
    }
  }

  /** The first words of the lines. */
  ghost function KeysOf(lines: seq<string>): set<string>
    requires AllSplit(lines)
  {
    set i | 0 <= i < |lines| :: Key(lines[i])
  }

  lemma KeysOfSnoc(lines: seq<string>)
    requires AllSplit(lines) && lines != []
    ensures AllSplit(lines[..|lines| - 1])
    ensures KeysOf(lines) == KeysOf(lines[..|lines| - 1]) + {Key(lines[|lines| - 1])}
  {
    var n := |lines| - 1;
    var init := lines[..n];
    assert AllSplit(init) by {
      forall i | 0 <= i < n ensures SplitFirst(init[i]).Some? { assert init[i] == lines[i]; }
    }
    forall k | k in KeysOf(lines) ensures k in KeysOf(init) + {Key(lines[n])} {
      var i :| 0 <= i < |lines| && Key(lines[i]) == k;
      if i < n { assert init[i] == lines[i]; }
    }
    forall k | k in KeysOf(init) ensures k in KeysOf(lines) {
      var i :| 0 <= i < n && Key(init[i]) == k;
      assert init[i] == lines[i];
    }
  }

  /** The keys of the dict are the first words of the lines. */
  lemma {:induction false} ParsePairsKeys(lines: seq<string>)
    requires ParsePairs(lines).Ok?
    ensures AllSplit(lines)
    ensures ParsePairs(lines).value.Keys == KeysOf(lines)
    decreases |lines|
  {
    ParsePairsFails(lines);
    if lines != [] {
      var n := |lines| - 1;
      KeysOfSnoc(lines);
      ParsePairsKeys(lines[..n]);
    }
  }

  /** Each key maps to the value of the last line that has it: a later
      duplicate replaces an earlier one. */
  lemma {:induction false} ParsePairsLast(lines: seq<string>)
    requires ParsePairs(lines).Ok?
    ensures AllSplit(lines)
    ensures forall i, k :: LastWithKey(lines, i, k) ==>
      k in ParsePairs(lines).value && ParsePairs(lines).value[k] == Value(lines[i])
    decreases |lines|
  {
    ParsePairsFails(lines);
    if lines != [] {
      var n := |lines| - 1;
      var init := lines[..n];
      ParsePairsLast(init);
      var m := ParsePairs(lines).value;
      forall i, key | LastWithKey(lines, i, key) ensures key in m && m[key] == Value(lines[i]) {
        if i < n {
          assert Key(lines[n]) != key;
          assert init[i] == lines[i];
          assert LastWithKey(init, i, key);
        }
      }
    }
  }

  /** The options of a collected record: one per key of the `pkg` options
      output, on exactly when the last line with that key says `on`, and
      never none at all. */
  lemma RecordOptions(host: Host, line: string, p: PackageInfo)
    requires Collect(host, line) == Ok(Some(p))
    ensures SplitFirst(line) == Some((p.name, p.origin))
    ensures p.options != map[]
    ensures host.optionLines(p.name).Ok? && AllSplit(host.optionLines(p.name).value)
    ensures var lines := host.optionLines(p.name).value;
      && p.options.Keys == KeysOf(lines)
      && (forall i, k :: LastWithKey(lines, i, k) ==> (p.options[k] <==> Value(lines[i]) == "on"))
  {
    ParsePairsKeys(host.optionLines(p.name).value);
    ParsePairsLast(host.optionLines(p.name).value);
  }

  /** A package whose options query prints nothing contributes no record. */
  lemma OptionlessSkipped(host: Host, line: string)
    requires SplitFirst(line).Some?
    requires host.optionLines(SplitFirst(line).value.0) == Ok([])
    ensures Collect(host, line) == Ok(None)
  {
  }

  /** The default options of a collected record: the words `make` printed
      for the package's origin and flavor or, when `make` failed, the options
      the package has on; plus every always-default option it declares, and
      nothing else. */
  lemma RecordDefaults(host: Host, line: string, p: PackageInfo)
    requires Collect(host, line) == Ok(Some(p))
    ensures var answer := host.optionsDefault(p.origin, EnvFor(p.flavor));
      && (forall n :: n in AlwaysDefault && n in p.options ==> n in p.defaultOptions)
      && (answer.Ok? ==> forall w :: w in Words(answer.value) ==> w in p.defaultOptions)
      && (answer.Err? ==> forall k :: k in p.options && p.options[k] ==> k in p.defaultOptions)
      && (answer.Err? ==> p.defaultOptions <= p.options.Keys)
      && (forall n :: n in p.defaultOptions ==>
            || (n in AlwaysDefault && n in p.options)
            || (answer.Ok? && n in Words(answer.value))
            || (answer.Err? && n in p.options && p.options[n]))
  {
    var annotations := ParsePairs(host.annotationLines(p.name).value).value;
    FlavorEnvMatchesRecord(annotations);
  }

  /** Gathering line outcomes keeps their order: the records of a prefix
      come before those of the rest. */
  lemma {:induction false} GatherAppend(a: seq<Result<Option<PackageInfo>, Error>>, b: seq<Result<Option<PackageInfo>, Error>>)
    ensures Gather(a + b) == (match Gather(a) case Err(e) => Err(e) case Ok(ra) => After(ra, Gather(b)))
    decreases |a|
  {
    if a == [] {
      assert a + b == b;
      if Gather(b).Ok? { assert [] + Gather(b).value == Gather(b).value; }
    } else {
      assert (a + b)[0] == a[0] && (a + b)[1..] == a[1..] + b;
      GatherAppend(a[1..], b);
      if a[0].Ok? && Gather(a[1..]).Ok? && Gather(b).Ok? {
        var x, ra, rb := Optional(a[0].value), Gather(a[1..]).value, Gather(b).value;
        assert x + (ra + rb) == (x + ra) + rb;
      }
    }
  }

  /** Records are yielded in the order of the package list: those of the
      lines `a` before those of the lines `b`. */
  lemma CollectAllAppend(host: Host, a: seq<string>, b: seq<string>)
    ensures CollectAll(host, a + b) ==
      (match CollectAll(host, a) case Err(e) => Err(e) case Ok(ra) => After(ra, CollectAll(host, b)))
  {
    assert LineOutcomes(host, a + b) == LineOutcomes(host, a) + LineOutcomes(host, b);
    GatherAppend(LineOutcomes(host, a), LineOutcomes(host, b));
  }

  /** A successful gathering: no line failed, and each record is the record
      of some line. */
  lemma {:induction false} GatherRecords(outcomes: seq<Result<Option<PackageInfo>, Error>>)
    requires Gather(outcomes).Ok?
    ensures forall i :: 0 <= i < |outcomes| ==> outcomes[i].Ok?
    ensures forall r :: r in Gather(outcomes).value ==>
      exists i :: 0 <= i < |outcomes| && outcomes[i] == Ok(Some(r))
    decreases |outcomes|
  {
    if outcomes != [] {
      GatherRecords(outcomes[1..]);
      forall r | r in Gather(outcomes).value
        ensures exists i :: 0 <= i < |outcomes| && outcomes[i] == Ok(Some(r))
      {
        if r in Gather(outcomes[1..]).value {
          var i :| 0 <= i < |outcomes| - 1 && outcomes[1..][i] == Ok(Some(r));
          assert outcomes[i + 1] == Ok(Some(r));
        } else {
          assert outcomes[0] == Ok(Some(r));
        }
      }
      forall i | 0 <= i < |outcomes| ensures outcomes[i].Ok? {
        if i > 0 { assert outcomes[i] == outcomes[1..][i - 1]; }
      }
    }
  }

  /** Every collected record comes from a line of the package list and
      declares at least one option. */
  lemma CollectedRecords(host: Host, rs: seq<PackageInfo>)
    requires Collected(host) == Ok(rs)
    ensures host.packageList.Ok?
    ensures forall r :: r in rs ==>
      r.options != map[] &&
      exists i :: 0 <= i < |host.packageList.value| && Collect(host, host.packageList.value[i]) == Ok(Some(r))
  {
    var lines := host.packageList.value;
    GatherRecords(LineOutcomes(host, lines));
    forall r | r in rs ensures r.options != map[] {
      var i :| 0 <= i < |lines| && LineOutcomes(host, lines)[i] == Ok(Some(r));
      RecordOptions(host, lines[i], r);
    }
  }
}
