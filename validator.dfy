/** `get_nested_value` and `validate_config` (src/utils/validator.py): a
    dot-path lookup into the configuration, and the completeness check that
    collects every rule violation before it raises. Python's crash behaviour
    on values of the wrong kind (`.get` on a non-dict, `<` on a string, `len`
    of an int) is kept as `Err` results of the exception it raises. */
module Validator {
  import opened Common
  import opened Strings
  import opened Values

  // ---------------------------------------------------------------------
  // get_nested_value
  // ---------------------------------------------------------------------

  /** The value reached by following `keys` from `v`; `Null` (Python's
      None) as soon as a key is missing or the current value is no dict. */
  function Walk(v: Value, keys: seq<string>): Value
    decreases |keys|, v
  {
    if keys == [] then v
    else match v
      case Dict(es) => if HasKey(es, keys[0]) then Walk(Find(es, keys[0]), keys[1..]) else Null
      case _ => Null
  }

  /** A walk along `a + b` is a walk along `a` followed by one along `b`. */
  lemma {:induction false} WalkConcat(v: Value, a: seq<string>, b: seq<string>)
    ensures Walk(v, a + b) == Walk(Walk(v, a), b)
    decreases |a|
  {
    if a == [] {
      assert a + b == b;
    } else {
      assert (a + b)[0] == a[0] && (a + b)[1..] == a[1..] + b;
      match v
      case Dict(es) =>
        if HasKey(es, a[0]) {
          WalkConcat(Find(es, a[0]), a[1..], b);
        } else {
          assert Walk(Null, b) == Null;
        }
      case _ =>
        assert Walk(Null, b) == Null;
    }
  }

  /** Once the walk has reached a value that is not a dict, any further key
      yields None. */
  lemma WalkStopsAtNonDict(v: Value, keys: seq<string>)
    requires !v.Dict? && keys != []
    ensures Walk(v, keys) == Null
  {
  }

  /** A missing key part-way down a path makes the whole lookup None. */
  lemma WalkMissingSegment(v: Value, a: seq<string>, k: string, b: seq<string>)
    requires Walk(v, a).Dict? && !HasKey(Walk(v, a).entries, k)
    ensures Walk(v, a + [k] + b) == Null
  {
    WalkConcat(v, a, [k] + b);
    assert a + [k] + b == a + ([k] + b);
  }

  function Nested(v: Value, path: string): Value {
    Walk(v, Split(path, '.'))
  }

  method GetNestedValue(data: Value, path: string) returns (r: Value)
    ensures r == Nested(data, path)
  {
    var keys := Split(path, '.');
    var value := data;
    var i := 0;
    while i < |keys|
      invariant 0 <= i <= |keys|
      invariant Walk(value, keys[i..]) == Walk(data, keys)
    {
      assert keys[i..][0] == keys[i] && keys[i..][1..] == keys[i + 1..];
      if value.Dict? && HasKey(value.entries, keys[i]) {
        value := Find(value.entries, keys[i]);
      } else {
        return Null;
      }
      i := i + 1;
    }
    return value;
  }

  // ---------------------------------------------------------------------
  // validate_config: the individual rules
  // ---------------------------------------------------------------------

  /** The required dotted paths, as their segments: `database.host` is
      `["database", "host"]`. */
  const RequiredFields: seq<seq<string>> := [
    ["database", "host"], ["database", "username"], ["database", "password"], ["database", "database"],
    ["registry", "servers"],
    ["aws", "region"], ["aws", "vpc_id"], ["aws", "subnets"], ["aws", "key_name"],
    ["cluster", "master", "count"], ["cluster", "worker", "count"], ["cluster", "api", "count"],
    ["deployment", "user"], ["deployment", "install_path"]
  ]

  function Dotted(path: seq<string>): string {
    Join(path, ".")
  }

  /** A path of one or more segments, none containing a dot. */
  predicate DotFree(path: seq<string>) {
    |path| >= 1 && forall i :: 0 <= i < |path| ==> '.' !in path[i]
  }

  lemma RequiredFieldsDotFree()
    ensures forall p | p in RequiredFields :: DotFree(p)
  {
  }

  /** The dotted name of a required field splits back into its segments. */
  lemma RequiredFieldsSplit(k: nat)
    requires k < |RequiredFields|
    ensures Split(Dotted(RequiredFields[k]), '.') == RequiredFields[k]
  {
    RequiredFieldsDotFree();
    assert RequiredFields[k] in RequiredFields;
    SplitJoin(RequiredFields[k], '.');
  }

  /** The rules of `validate_config`; `Message` gives the text the source
      appends to `errors` for each. */
  datatype Violation =
    | MissingField(path: seq<string>)
    | HdfsNamenodeHost | HdfsNamenodePort
    | S3Bucket | S3Region | S3Credentials
    | PackageBucket | PackageRegion
    | MasterCount | ApiCount | WorkerCount
    | MasterZones | TooFewSubnets

  function Message(v: Violation): string {
    match v
    case MissingField(path) => "Missing required field: " + Dotted(path)
    case HdfsNamenodeHost => "Missing required field: storage.hdfs.namenode_host"
    case HdfsNamenodePort => "Missing required field: storage.hdfs.namenode_port"
    case S3Bucket => "Missing required field: storage.bucket (for S3 storage)"
    case S3Region => "Missing required field: storage.region (for S3 storage)"
    case S3Credentials => "S3 storage requires either use_iam_role=true or access_key_id/secret_access_key"
    case PackageBucket => "Missing required field: package_distribution.s3.bucket"
    case PackageRegion => "Missing required field: package_distribution.s3.region"
    case MasterCount => "Master node count must be at least 2 for high availability"
    case ApiCount => "API node count must be at least 1"
    case WorkerCount => "Worker node count must be at least 1"
    case MasterZones => "Master nodes must be distributed across at least 2 availability zones"
    case TooFewSubnets => "At least 2 subnets in different AZs are required for high availability"
  }

  /** The position of each rule in the source's order of checks. */
  function Rank(v: Violation): nat {
    match v
    case MissingField(_) => 0
    case HdfsNamenodeHost | HdfsNamenodePort | S3Bucket | S3Region | S3Credentials => 1
    case PackageBucket | PackageRegion => 2
    case MasterCount => 3
    case ApiCount => 4
    case WorkerCount => 5
    case MasterZones => 6
    case TooFewSubnets => 7
  }

  /** A rule's result: its violations belong to rule `k`, and it crashes
      only with AttributeError or TypeError. */
  predicate RuleShape(r: Result<seq<Violation>>, k: nat) {
    (r.Ok? ==> forall v | v in r.value :: Rank(v) == k)
    && (r.Err? ==> r.error.kind in {AttributeError, TypeError})
  }

  /** `value is None or (isinstance(value, (str, list)) and not value)`:
      a zero or a False passes, and so does an empty dict. */
  predicate IsMissing(v: Value) {
    v.Null? || (v.Str? && v.s == []) || (v.List? && v.items == [])
  }

  /** The violations of the required-field loop over `fields`, in order. */
  function MissingFields(c: Value, fields: seq<seq<string>>): seq<Violation>
    decreases |fields|, c
  {
    if fields == [] then []
    else
      var f := fields[|fields| - 1];
      MissingFields(c, fields[..|fields| - 1]) + (if IsMissing(Walk(c, f)) then [MissingField(f)] else [])
  }

  function If(cond: bool, v: Violation): seq<Violation> {
    if cond then [v] else []
  }

  /** `d.get(k0, {}).get(k1, {}) ... .get(kn, default)`: every step but the
      last defaults to an empty dict, and a step on a non-dict raises. */
  function GetChain(d: Value, keys: seq<string>, default: Value): (r: Result<Value>)
    requires |keys| >= 1
    ensures r.Err? ==> r.error.kind == AttributeError
    decreases |keys|, d
  {
    if |keys| == 1 then Get(d, keys[0], default)
    else
      var next := Get(d, keys[0], Dict([]));
      if next.Err? then next else GetChain(next.value, keys[1..], default)
  }

  /** `config.get('storage', {}).get('type', 'LOCAL').upper()`: absent
      storage, or storage without a type, is LOCAL; a configured string type
      comes back the same up to letter case and with no lower-case letter;
      a configuration or storage block that is not a dict, or a type that
      is not a string, raises AttributeError. */
  function StorageType(c: Value): (r: Result<string>)
    ensures r.Err? ==> r.error.kind == AttributeError
    ensures !c.Dict? ==> r.Err?
    ensures c.Dict? && !HasKey(c.entries, "storage") ==> r == Ok("LOCAL")
    ensures c.Dict? && HasKey(c.entries, "storage") ==>
      var st := Find(c.entries, "storage");
      && (!st.Dict? ==> r.Err?)
      && (st.Dict? && !HasKey(st.entries, "type") ==> r == Ok("LOCAL"))
      && (st.Dict? && HasKey(st.entries, "type") ==>
            (r.Ok? <==> Find(st.entries, "type").Str?) &&
            (r.Ok? ==> Lower(r.value) == Lower(Find(st.entries, "type").s)))
    ensures r.Ok? ==> forall i :: 0 <= i < |r.value| ==> !('a' <= r.value[i] <= 'z')
  {
    var ty := GetChain(c, ["storage", "type"], Str("LOCAL"));
    GetChainPair(c, "storage", "type", Str("LOCAL"));
    assert Upper("LOCAL") == "LOCAL";
    if ty.Err? then Err(ty.error)
    else if !ty.value.Str? then Err(Error(AttributeError, "object has no attribute 'upper'"))
    else
      assert Lower(Upper(ty.value.s)) == Lower(ty.value.s);
      Ok(Upper(ty.value.s))
  }

  /** A chain of two lookups: the first defaults to an empty dict. */
  lemma GetChainPair(d: Value, k0: string, k1: string, default: Value)
    ensures var next := Get(d, k0, Dict([]));
      GetChain(d, [k0, k1], default) == if next.Err? then next else Get(next.value, k1, default)
  {
    assert [k0, k1][1..] == [k1];
  }

  /** The storage-specific rules: HDFS needs the namenode, S3 a bucket, a
      region and either an IAM role or both keys; any other type adds none. */
  function StorageErrors(c: Value): (r: Result<seq<Violation>>)
    ensures r.Ok? ==> forall v | v in r.value ::
      v in {HdfsNamenodeHost, HdfsNamenodePort, S3Bucket, S3Region, S3Credentials}
    ensures r.Err? ==> r.error.kind == AttributeError
    ensures RuleShape(r, 1)
  {
    var t := StorageType(c);
    if t.Err? then Err(t.error)
    else if t.value == "HDFS" then
      Ok(If(!Truthy(Walk(c, ["storage", "hdfs", "namenode_host"])), HdfsNamenodeHost)
         + If(!Truthy(Walk(c, ["storage", "hdfs", "namenode_port"])), HdfsNamenodePort))
    else if t.value == "S3" then
      Ok(If(!Truthy(Walk(c, ["storage", "bucket"])), S3Bucket)
         + If(!Truthy(Walk(c, ["storage", "region"])), S3Region)
         + If(!Truthy(Walk(c, ["storage", "use_iam_role"]))
              && (!Truthy(Walk(c, ["storage", "access_key_id"])) || !Truthy(Walk(c, ["storage", "secret_access_key"]))),
              S3Credentials))
    else Ok([])
  }

  /** When `package_distribution.enabled` is truthy the package bucket and
      region are required. */
  function PackageErrors(c: Value): (r: Result<seq<Violation>>)
    ensures r.Ok? ==> forall v | v in r.value :: v in {PackageBucket, PackageRegion}
    ensures r.Err? ==> r.error.kind == AttributeError
    ensures RuleShape(r, 2)
  {
    var en := GetChain(c, ["package_distribution", "enabled"], Bool(false));
    if en.Err? then Err(en.error)
    else if !Truthy(en.value) then Ok([])
    else
      Ok(If(!Truthy(Walk(c, ["package_distribution", "s3", "bucket"])), PackageBucket)
         + If(!Truthy(Walk(c, ["package_distribution", "s3", "region"])), PackageRegion))
  }

  /** `config.get('cluster', {}).get(component, {}).get('count', 0)` */
  function ComponentCount(c: Value, component: string): Result<Value> {
    GetChain(c, ["cluster", component, "count"], Int(0))
  }

  /** The replica rule for one component: a count below `min` is an error. */
  function CountErrors(c: Value, component: string, min: int, v: Violation): (r: Result<seq<Violation>>)
    ensures r.Ok? ==> forall x | x in r.value :: x == v
    ensures r.Err? ==> r.error.kind in {AttributeError, TypeError}
    ensures RuleShape(r, Rank(v))
  {
    var n := ComponentCount(c, component);
    if n.Err? then Err(n.error)
    else
      var lt := LessThan(n.value, min);
      if lt.Err? then Err(lt.error) else Ok(If(lt.value, v))
  }

  /** The element a Python set keeps for a hashable value: `True == 1` and
      `False == 0` hash alike, so a bool is stored as its integer. */
  function HashKey(v: Value): (k: Value)
    ensures !k.Bool?
    ensures v.Bool? ==> k == Int(if v.b then 1 else 0)
    ensures !v.Bool? ==> k == v
  {
    if v.Bool? then Int(if v.b then 1 else 0) else v
  }

  /** `node.get('availability_zone')` */
  function ZoneOf(node: Value): Result<Value> {
    Get(node, "availability_zone", Null)
  }

  /** The set of truthy `availability_zone` values of the nodes, built as
      the comprehension does: left to right, the first failing node raising,
      each zone stored under Python's equality. */
  function AzSet(nodes: seq<Value>): (r: Result<set<Value>>)
    ensures r.Err? ==> r.error.kind in {AttributeError, TypeError}
    ensures r.Ok? ==> forall az | az in r.value :: Truthy(az) && !az.List? && !az.Dict? && !az.Bool?
    decreases |nodes|
  {
    if nodes == [] then Ok({})
    else
      var prev := AzSet(nodes[..|nodes| - 1]);
      if prev.Err? then prev
      else
        var az := ZoneOf(nodes[|nodes| - 1]);
        if az.Err? then Err(az.error)
        else if !Truthy(az.value) then prev
        else if az.value.List? || az.value.Dict? then Err(Error(TypeError, "unhashable type"))
        else Ok(prev.value + {HashKey(az.value)})
  }

  /** A node contributes the zone `z` to the set. */
  predicate Contributes(node: Value, z: Value) {
    ZoneOf(node).Ok? && Truthy(ZoneOf(node).value) && HashKey(ZoneOf(node).value) == z
  }

  /** The set the comprehension builds holds exactly the truthy zones of the
      nodes, up to Python's equality. */
  lemma {:induction false} AzSetMembers(nodes: seq<Value>, z: Value)
    requires AzSet(nodes).Ok?
    ensures z in AzSet(nodes).value <==> exists i :: 0 <= i < |nodes| && Contributes(nodes[i], z)
    decreases |nodes|
  {
    if nodes != [] {
      var init, last := nodes[..|nodes| - 1], nodes[|nodes| - 1];
      assert init + [last] == nodes;
      AzSetSnoc(init, last, z);
      AzSetMembers(init, z);
      if z in AzSet(init).value {
        var i :| 0 <= i < |init| && Contributes(init[i], z);
        assert nodes[i] == init[i];
      } else if Contributes(last, z) {
        assert nodes[|nodes| - 1] == last;
      } else {
        forall i | 0 <= i < |nodes| ensures !Contributes(nodes[i], z) {
          if i < |init| {
            assert nodes[i] == init[i];
          }
        }
      }
    }
  }

  /** One more node adds its zone, if it has a truthy one. */
  lemma AzSetSnoc(init: seq<Value>, last: Value, z: Value)
    requires AzSet(init + [last]).Ok?
    ensures AzSet(init).Ok?
    ensures z in AzSet(init + [last]).value <==> z in AzSet(init).value || Contributes(last, z)
  {
    var nodes := init + [last];
    assert nodes[..|nodes| - 1] == init;
    assert nodes[|nodes| - 1] == last;
  }

  /** A zone written `1` and a zone written `true` count as one zone. */
  lemma OneAndTrueAreOneZone()
    ensures var a := Dict([Entry("availability_zone", Int(1))]);
      var b := Dict([Entry("availability_zone", Bool(true))]);
      AzSet([a, b]) == Ok({Int(1)})
  {
    var a := Dict([Entry("availability_zone", Int(1))]);
    var b := Dict([Entry("availability_zone", Bool(true))]);
    assert ZoneOf(a) == Ok(Int(1));
    assert ZoneOf(b) == Ok(Bool(true));
    assert Truthy(Int(1)) && HashKey(Int(1)) == Int(1);
    var sa := [a];
    assert sa[..|sa| - 1] == [];
    assert sa[|sa| - 1] == a;
    assert AzSet(sa[..|sa| - 1]) == Ok({});
    assert AzSet(sa) == Ok({} + {Int(1)});
    assert {} + {Int(1)} == {Int(1)};
    var sb := [a, b];
    assert sb[..|sb| - 1] == sa;
    assert sb[|sb| - 1] == b;
    assert Truthy(Bool(true)) && HashKey(Bool(true)) == Int(1);
    assert AzSet(sb) == Ok({Int(1)} + {Int(1)});
    assert {Int(1)} + {Int(1)} == {Int(1)};
  }

  /** Iterating a truthy non-list `nodes` value: a dict or a string yields
      strings, which have no `.get`; a number is not iterable. */
  function NodesAzSet(nodes: Value): (r: Result<set<Value>>)
    ensures r.Err? ==> r.error.kind in {AttributeError, TypeError}
  {
    match nodes
    case List(items) => AzSet(items)
    case Dict(_) => Err(Error(AttributeError, "'str' object has no attribute 'get'"))
    case Str(_) => Err(Error(AttributeError, "'str' object has no attribute 'get'"))
    case _ => Err(Error(TypeError, "object is not iterable"))
  }

  /** `config.get('cluster', {}).get('master', {}).get('nodes', [])` */
  function MasterNodes(c: Value): Result<Value> {
    GetChain(c, ["cluster", "master", "nodes"], List([]))
  }

  /** The master AZ rule, applied only when master nodes are listed. */
  function AzErrors(c: Value): (r: Result<seq<Violation>>)
    ensures r.Ok? ==> forall x | x in r.value :: x == MasterZones
    ensures r.Err? ==> r.error.kind in {AttributeError, TypeError}
    ensures RuleShape(r, 6)
  {
    var nodes := MasterNodes(c);
    if nodes.Err? then Err(nodes.error)
    else if !Truthy(nodes.value) then Ok([])
    else
      var azs := NodesAzSet(nodes.value);
      if azs.Err? then Err(azs.error) else Ok(If(|azs.value| < 2, MasterZones))
  }

  /** `config.get('aws', {}).get('subnets', [])` */
  function Subnets(c: Value): Result<Value> {
    GetChain(c, ["aws", "subnets"], List([]))
  }

  function SubnetErrors(c: Value): (r: Result<seq<Violation>>)
    ensures r.Ok? ==> forall x | x in r.value :: x == TooFewSubnets
    ensures r.Err? ==> r.error.kind in {AttributeError, TypeError}
    ensures RuleShape(r, 7)
  {
    var sn := Subnets(c);
    if sn.Err? then Err(sn.error)
    else
      var n := Len(sn.value);
      if n.Err? then Err(n.error) else Ok(If(n.value < 2, TooFewSubnets))
  }

  /** The replica rule reports iff the count compares below `min`. */
  lemma CountErrorsIff(c: Value, component: string, min: int, v: Violation)
    requires CountErrors(c, component, min, v).Ok?
    ensures ComponentCount(c, component).Ok?
    ensures v in CountErrors(c, component, min, v).value
      <==> LessThan(ComponentCount(c, component).value, min) == Ok(true)
  {
  }

  /** The master AZ rule reports iff master nodes are listed and their
      truthy zones number fewer than two. */
  lemma AzErrorsIff(c: Value)
    requires AzErrors(c).Ok?
    ensures MasterNodes(c).Ok?
    ensures MasterZones in AzErrors(c).value <==>
      Truthy(MasterNodes(c).value) && NodesAzSet(MasterNodes(c).value).Ok?
      && |NodesAzSet(MasterNodes(c).value).value| < 2
  {
  }

  /** The subnet rule reports iff fewer than two subnets are listed. */
  lemma SubnetErrorsIff(c: Value)
    requires SubnetErrors(c).Ok?
    ensures Subnets(c).Ok? && Len(Subnets(c).value).Ok?
    ensures TooFewSubnets in SubnetErrors(c).value <==> Len(Subnets(c).value).value < 2
  {
  }

  /** Appends the violations of the next rule unless an earlier rule
      crashed or this one does. */
  function Then(acc: Result<seq<Violation>>, next: Result<seq<Violation>>): Result<seq<Violation>> {
    if acc.Err? then acc else if next.Err? then next else Ok(acc.value + next.value)
  }

  const RuleCount: nat := 8

  /** Rule `k` in the source's order of checks: the required fields, the
      storage, the package distribution, the master, api and worker
      counts, the master zones and the subnets; there is no rule past
      the eighth. */
  function Rule(c: Value, k: nat): (r: Result<seq<Violation>>)
    ensures RuleShape(r, k)
  {
    if k == 0 then
      MissingFieldsRank(c, RequiredFields);
      Ok(MissingFields(c, RequiredFields))
    else if k == 1 then StorageErrors(c)
    else if k == 2 then PackageErrors(c)
    else if k == 3 then CountErrors(c, "master", 2, MasterCount)
    else if k == 4 then CountErrors(c, "api", 1, ApiCount)
    else if k == 5 then CountErrors(c, "worker", 1, WorkerCount)
    else if k == 6 then AzErrors(c)
    else if k == 7 then SubnetErrors(c)
    else Ok([])
  }

  /** The rules applied to one configuration. */
  function Rules(c: Value): nat -> Result<seq<Violation>> {
    (k: nat) => Rule(c, k)
  }

  /** Runs the first `n` rules in order: a crash ends the run, otherwise
      the violations are appended. */
  function Stage(rules: nat -> Result<seq<Violation>>, n: nat): Result<seq<Violation>>
    decreases n
  {
    if n == 0 then Ok([]) else Then(Stage(rules, n - 1), rules(n - 1))
  }

  /** Every rule, in the order the source checks them. */
  function ConfigErrors(c: Value): Result<seq<Violation>> {
    Stage(Rules(c), RuleCount)
  }

  /** The ValueError text: a header line and one `  - ` line per error. */
  function Report(errors: seq<Violation>): string {
    "Configuration validation failed:\n"
      + Join(seq(|errors|, i requires 0 <= i < |errors| => "  - " + Message(errors[i])), "\n")
  }

  /** Raise on a crash, raise ValueError when there are errors, else True. */
  function Outcome(e: Result<seq<Violation>>): Result<bool> {
    if e.Err? then Err(e.error)
    else if e.value != [] then Err(Error(ValueError, Report(e.value)))
    else Ok(true)
  }

  // ---------------------------------------------------------------------
  // validate_config: the accumulating procedure
  // ---------------------------------------------------------------------

  /** Once the comprehension has raised, later nodes change nothing. */
  lemma {:induction false} AzSetErrSticky(nodes: seq<Value>, j: nat)
    requires j <= |nodes| && AzSet(nodes[..j]).Err?
    ensures AzSet(nodes) == AzSet(nodes[..j])
    decreases |nodes| - j
  {
    if j < |nodes| {
      assert nodes[..j + 1][..j] == nodes[..j];
      AzSetErrSticky(nodes, j + 1);
    } else {
      assert nodes[..j] == nodes;
    }
  }

  method CollectAzs(nodes: seq<Value>) returns (r: Result<set<Value>>)
    ensures r == AzSet(nodes)
  {
    var azs: set<Value> := {};
    var i := 0;
    while i < |nodes|
      invariant 0 <= i <= |nodes|
      invariant AzSet(nodes[..i]) == Ok(azs)
    {
      assert nodes[..i + 1][..i] == nodes[..i];
      var az := ZoneOf(nodes[i]);
      if az.Err? {
        AzSetErrSticky(nodes, i + 1);
        return Err(az.error);
      }
      if Truthy(az.value) {
        if az.value.List? || az.value.Dict? {
          AzSetErrSticky(nodes, i + 1);
          return Err(Error(TypeError, "unhashable type"));
        }
        azs := azs + {HashKey(az.value)};
      }
      i := i + 1;
    }
    assert nodes[..i] == nodes;
    return Ok(azs);
  }

  /** One turn of the required-field loop: the dotted name looked up with
      `get_nested_value` is the field's own path. */
  lemma RequiredFieldStep(config: Value, i: nat)
    requires i < |RequiredFields|
    ensures MissingFields(config, RequiredFields[..i + 1]) == MissingFields(config, RequiredFields[..i])
      + (if IsMissing(Nested(config, Dotted(RequiredFields[i]))) then [MissingField(RequiredFields[i])] else [])
  {
    assert RequiredFields[..i + 1][..i] == RequiredFields[..i];
    RequiredFieldsSplit(i);
  }

  /** The required-field loop. */
  method RequiredFieldErrors(config: Value) returns (errors: seq<Violation>)
    ensures errors == MissingFields(config, RequiredFields)
  {
    errors := [];
    var i := 0;
    while i < |RequiredFields|
      invariant 0 <= i <= |RequiredFields|
      invariant errors == MissingFields(config, RequiredFields[..i])
    {
      var value := GetNestedValue(config, Dotted(RequiredFields[i]));
      RequiredFieldStep(config, i);
      if IsMissing(value) {
        errors := errors + [MissingField(RequiredFields[i])];
      }
      i := i + 1;
    }
    assert RequiredFields[..i] == RequiredFields;
  }

  /** The master AZ rule, collecting the zones with a loop. */
  method MasterAzErrors(config: Value) returns (r: Result<seq<Violation>>)
    ensures r == AzErrors(config)
  {
    var nodes := MasterNodes(config);
    if nodes.Err? {
      return Err(nodes.error);
    }
    if !Truthy(nodes.value) {
      return Ok([]);
    }
    var azs: Result<set<Value>>;
    if nodes.value.List? {
      azs := CollectAzs(nodes.value.items);
    } else {
      azs := NodesAzSet(nodes.value);
    }
    if azs.Err? {
      return Err(azs.error);
    }
    return Ok(If(|azs.value| < 2, MasterZones));
  }

  /** The rules of `validate_config` applied one after the other, the
      violations appended to one list. */
  method CollectViolations(config: Value) returns (acc: Result<seq<Violation>>)
    ensures acc == ConfigErrors(config)
  {
    var errors := RequiredFieldErrors(config);
    acc := Ok(errors);
    acc := Then(acc, StorageErrors(config));
    acc := Then(acc, PackageErrors(config));
    acc := Then(acc, CountErrors(config, "master", 2, MasterCount));
    acc := Then(acc, CountErrors(config, "api", 1, ApiCount));
    acc := Then(acc, CountErrors(config, "worker", 1, WorkerCount));
    var az := MasterAzErrors(config);
    acc := Then(acc, az);
    var sn := SubnetErrors(config);
    acc := Then(acc, sn);
    ConfigErrorsInOrder(config);
  }

  /** `validate_config`: raises the first crash, raises ValueError listing
      every violation, or returns True. */
  method ValidateConfig(config: Value) returns (r: Result<bool>)
    ensures r == Outcome(ConfigErrors(config))
    ensures r == Ok(true) <==> ConfigErrors(config) == Ok([])
  {
    var acc := CollectViolations(config);
    if acc.Err? {
      return Err(acc.error);
    }
    if acc.value != [] {
      return Err(Error(ValueError, Report(acc.value)));
    }
    return Ok(true);
  }

  // ---------------------------------------------------------------------
  // Properties of the rules
  // ---------------------------------------------------------------------

  /** A required field is reported iff it is missing. */
  lemma {:induction false} MissingFieldReportedIff(c: Value, fields: seq<seq<string>>, f: seq<string>)
    ensures MissingField(f) in MissingFields(c, fields) <==> f in fields && IsMissing(Walk(c, f))
    decreases |fields|
  {
    if fields != [] {
      var init, last := fields[..|fields| - 1], fields[|fields| - 1];
      MissingFieldReportedIff(c, init, f);
      assert fields == init + [last];
    }
  }

  lemma {:induction false} MissingFieldsRank(c: Value, fields: seq<seq<string>>)
    ensures forall v | v in MissingFields(c, fields) :: Rank(v) == 0
    decreases |fields|
  {
    if fields != [] {
      MissingFieldsRank(c, fields[..|fields| - 1]);
    }
  }

  /** Each rule reports only violations of its own rank. */
  ghost predicate Ranked(rules: nat -> Result<seq<Violation>>) {
    forall k: nat :: RuleShape(rules(k), k)
  }

  lemma RulesRanked(c: Value)
    ensures Ranked(Rules(c))
  {
  }

  /** A run that does not crash is made of rules that do not. */
  lemma {:induction false} StageOk(rules: nat -> Result<seq<Violation>>, n: nat)
    requires Stage(rules, n).Ok?
    ensures forall k | 0 <= k < n :: rules(k).Ok?
    decreases n
  {
    if n > 0 {
      StageOk(rules, n - 1);
    }
  }

  /** With ranked rules a violation is reported iff the rule it belongs to
      reports it: no other rule produces it, and no later rule discards it. */
  lemma {:induction false} StageMember(rules: nat -> Result<seq<Violation>>, n: nat, v: Violation)
    requires Ranked(rules) && Stage(rules, n).Ok?
    ensures Rank(v) < n ==> rules(Rank(v)).Ok? && (v in Stage(rules, n).value <==> v in rules(Rank(v)).value)
    ensures Rank(v) >= n ==> v !in Stage(rules, n).value
    decreases n
  {
    if n > 0 {
      StageOk(rules, n);
      StageMember(rules, n - 1, v);
      assert RuleShape(rules(n - 1), n - 1);
    }
  }

  /** A run reports nothing iff each of its rules runs and reports nothing. */
  lemma {:induction false} StageEmpty(rules: nat -> Result<seq<Violation>>, n: nat)
    ensures Stage(rules, n) == Ok([]) <==> forall k | 0 <= k < n :: rules(k) == Ok([])
    decreases n
  {
    if n > 0 {
      StageEmpty(rules, n - 1);
      if Stage(rules, n) == Ok([]) {
        StageOk(rules, n);
      }
    }
  }

  /** A crashing run raises the exception of its first crashing rule. */
  lemma {:induction false} StageErr(rules: nat -> Result<seq<Violation>>, n: nat)
    requires Stage(rules, n).Err?
    ensures exists k | 0 <= k < n :: rules(k) == Stage(rules, n) && forall j | 0 <= j < k :: rules(j).Ok?
    decreases n
  {
    if Stage(rules, n - 1).Err? {
      StageErr(rules, n - 1);
    } else {
      StageOk(rules, n - 1);
      assert rules(n - 1) == Stage(rules, n);
    }
  }

  /** The run of all rules, written out in the source's order. */
  lemma ConfigErrorsInOrder(c: Value)
    ensures ConfigErrors(c) ==
      Then(Then(Then(Then(Then(Then(Then(
        Ok(MissingFields(c, RequiredFields)),
        StorageErrors(c)),
        PackageErrors(c)),
        CountErrors(c, "master", 2, MasterCount)),
        CountErrors(c, "api", 1, ApiCount)),
        CountErrors(c, "worker", 1, WorkerCount)),
        AzErrors(c)),
        SubnetErrors(c))
  {
    var rules := Rules(c);
    assert [] + MissingFields(c, RequiredFields) == MissingFields(c, RequiredFields);
    assert Stage(rules, 1) == Ok(MissingFields(c, RequiredFields));
    assert Stage(rules, 2) == Then(Stage(rules, 1), StorageErrors(c));
    assert Stage(rules, 3) == Then(Stage(rules, 2), PackageErrors(c));
    assert Stage(rules, 4) == Then(Stage(rules, 3), CountErrors(c, "master", 2, MasterCount));
    assert Stage(rules, 5) == Then(Stage(rules, 4), CountErrors(c, "api", 1, ApiCount));
    assert Stage(rules, 6) == Then(Stage(rules, 5), CountErrors(c, "worker", 1, WorkerCount));
    assert Stage(rules, 7) == Then(Stage(rules, 6), AzErrors(c));
  }

  /** A violation is reported iff the rule it belongs to reports it. */
  lemma ReportedByItsRule(c: Value, v: Violation)
    requires ConfigErrors(c).Ok?
    ensures Rank(v) < RuleCount && Rule(c, Rank(v)).Ok?
    ensures v in ConfigErrors(c).value <==> v in Rule(c, Rank(v)).value
  {
    RulesRanked(c);
    StageMember(Rules(c), RuleCount, v);
  }

  /** Every required field is reported iff it is missing. */
  lemma RequiredReportedIff(c: Value, f: seq<string>)
    requires ConfigErrors(c).Ok?
    ensures MissingField(f) in ConfigErrors(c).value <==> f in RequiredFields && IsMissing(Walk(c, f))
  {
    ReportedByItsRule(c, MissingField(f));
    MissingFieldReportedIff(c, RequiredFields, f);
  }

  /** The configuration is accepted iff every rule runs without raising
      and reports nothing. */
  lemma ValidIffRulesClean(c: Value)
    ensures Outcome(ConfigErrors(c)) == Ok(true) <==> forall k | 0 <= k < RuleCount :: Rule(c, k) == Ok([])
  {
    StageEmpty(Rules(c), RuleCount);
  }

  /** The required-field loop reports nothing iff no field is missing. */
  lemma {:induction false} NoMissingIff(c: Value, fields: seq<seq<string>>)
    ensures MissingFields(c, fields) == [] <==> forall f | f in fields :: !IsMissing(Walk(c, f))
    decreases |fields|
  {
    if fields != [] {
      var init, last := fields[..|fields| - 1], fields[|fields| - 1];
      NoMissingIff(c, init);
      assert fields == init + [last];
      assert forall f | f in fields :: f in init || f == last;
      assert forall f | f in init :: f in fields;
      assert last in fields;
    }
  }

  /** The rules raise only AttributeError and TypeError, so the ValueError
      is raised iff some rule reported a violation. */
  lemma ValueErrorIffReported(c: Value)
    ensures Outcome(ConfigErrors(c)).Err? && Outcome(ConfigErrors(c)).error.kind == ValueError
      <==> ConfigErrors(c).Ok? && ConfigErrors(c).value != []
  {
    CrashKinds(c);
  }

  lemma CrashKinds(c: Value)
    ensures ConfigErrors(c).Err? ==> ConfigErrors(c).error.kind in {AttributeError, TypeError}
  {
    if ConfigErrors(c).Err? {
      StageErr(Rules(c), RuleCount);
    }
  }

  /** With the storage type LOCAL (also the default) the storage rules add
      nothing. */
  lemma LocalStorageAddsNothing(c: Value)
    requires StorageType(c) == Ok("LOCAL")
    ensures StorageErrors(c) == Ok([])
  {
  }

  /** A zero or a False value is not "missing"; an empty string or list is. */
  lemma MissingOnlyWhenEmpty()
    ensures !IsMissing(Int(0)) && !IsMissing(Bool(false)) && !IsMissing(Dict([]))
    ensures IsMissing(Null) && IsMissing(Str("")) && IsMissing(List([]))
  {
  }
}
