/** Project-type detection of src/detection/project_type.rs: a project type is
    present in a directory when one of its marker files exists there. Whether a
    file exists is a parameter. */
module Detection {
  import opened Common
  import opened Lists
  import Paths

  datatype ProjectType = Node | Python | Rust | Go | Bun

  /** `as_str`: the name used for profiles. */
  function AsStr(t: ProjectType): (r: string)
    ensures r != [] && forall i :: 0 <= i < |r| ==> 'a' <= r[i] <= 'z'
  {
    match t
    case Node => "node"
    case Python => "python"
    case Rust => "rust"
    case Go => "go"
    case Bun => "bun"
  }

  /** `to_profile`. */
  function ToProfile(t: ProjectType): (r: string)
    ensures r == AsStr(t)
  {
    AsStr(t)
  }

  /** Different types have different names, and the profile name is that name. */
  lemma AsStrInjective(a: ProjectType, b: ProjectType)
    ensures AsStr(a) == AsStr(b) <==> a == b
    ensures ToProfile(a) == AsStr(a)
  {
    if a != b {
      assert AsStr(a)[0] != AsStr(b)[0] || |AsStr(a)| != |AsStr(b)|;
    }
  }

  /** `all`: the order in which types are checked; Bun comes before Node. */
  function All(): (r: seq<ProjectType>)
    ensures |r| == 5 && r[0] == Bun
  {
    [Bun, Node, Python, Rust, Go]
  }

  /** Position of a type in `All`. */
  function Rank(t: ProjectType): nat
  {
    match t
    case Bun => 0
    case Node => 1
    case Python => 2
    case Rust => 3
    case Go => 4
  }

  /** `All` lists every type once, in rank order. */
  lemma AllInRankOrder()
    ensures |All()| == 5
    ensures forall k :: 0 <= k < |All()| ==> Rank(All()[k]) == k
    ensures forall t :: t in All()
  {
    forall t ensures t in All() {
      assert All()[Rank(t)] == t;
    }
  }

  /** `markers`: the marker files of each type. */
  function Markers(t: ProjectType): (r: seq<string>)
    ensures r != [] && NoDup(r)
  {
    match t
    case Node => ["package.json"]
    case Python => ["requirements.txt", "pyproject.toml", "setup.py"]
    case Rust => ["Cargo.toml"]
    case Go => ["go.mod"]
    case Bun => ["bun.lockb", "bunfig.toml"]
  }

  /** No marker file belongs to two types. */
  lemma MarkersDisjoint(a: ProjectType, b: ProjectType)
    requires a != b
    ensures forall m :: m in Markers(a) ==> m !in Markers(b)
  {
  }

  /** `markers.iter().any(|m| dir.join(m).exists())`. */
  predicate AnyMarkerExists(dir: string, markers: seq<string>, fileExists: string -> bool)
  {
    markers != [] && (fileExists(Paths.Join(dir, markers[0])) || AnyMarkerExists(dir, markers[1..], fileExists))
  }

  /** `any` finds a marker exactly when some marker file exists. */
  lemma {:induction false} AnyMarkerExistsIff(dir: string, markers: seq<string>, fileExists: string -> bool)
    ensures AnyMarkerExists(dir, markers, fileExists)
        <==> exists i :: 0 <= i < |markers| && fileExists(Paths.Join(dir, markers[i]))
  {
    if markers != [] {
      AnyMarkerExistsIff(dir, markers[1..], fileExists);
      forall i | 1 <= i < |markers| ensures markers[i] == markers[1..][i - 1] {}
    }
  }

  predicate Present(dir: string, t: ProjectType, fileExists: string -> bool)
  {
    AnyMarkerExists(dir, Markers(t), fileExists)
  }

  predicate RankSorted(ts: seq<ProjectType>)
  {
    forall i, j :: 0 <= i < j < |ts| ==> Rank(ts[i]) < Rank(ts[j])
  }

  /** The types among `All()[k..]` that satisfy `keep`, in the order of `All`. */
  function FilterFrom(k: nat, keep: ProjectType -> bool): (r: seq<ProjectType>)
    requires k <= |All()|
    decreases |All()| - k
    ensures |r| <= |All()| - k
    ensures forall i :: 0 <= i < |r| ==> k <= Rank(r[i])
    ensures RankSorted(r)
    ensures forall t :: t in r <==> k <= Rank(t) && keep(t)
  {
    if k == |All()| then []
    else
      AllInRankOrder();
      var rest := FilterFrom(k + 1, keep);
      assert forall t :: Rank(t) == k ==> t == All()[k] by {
        forall t | Rank(t) == k ensures t == All()[k] { assert All()[Rank(t)] == t; }
      }
      (if keep(All()[k]) then [All()[k]] else []) + rest
  }

  /** `detect_project_types`: exactly the present types, in the order of `All`,
      each once; nothing when no marker exists. */
  function DetectProjectTypes(dir: string, fileExists: string -> bool): (r: seq<ProjectType>)
    ensures forall t :: t in r <==> Present(dir, t, fileExists)
    ensures RankSorted(r) && NoDup(r) && |r| <= 5
    ensures (forall t :: !Present(dir, t, fileExists)) ==> r == []
  {
    var r := FilterFrom(0, t => Present(dir, t, fileExists));
    assert r != [] ==> r[0] in r;
    r
  }

  /** `detect_project_type`: the head of the detected list. */
  function DetectProjectType(dir: string, fileExists: string -> bool): (r: Option<ProjectType>)
    ensures r.None? <==> DetectProjectTypes(dir, fileExists) == []
    ensures r.Some? ==> var types := DetectProjectTypes(dir, fileExists);
      r.value in types && forall i :: 0 <= i < |types| ==> Rank(r.value) <= Rank(types[i])
  {
    var types := DetectProjectTypes(dir, fileExists);
    if types == [] then None
    else Some(types[0])
  }

  /** The primary type is the first present one in the order of `All`, and
      there is none exactly when no marker exists. */
  lemma DetectProjectTypeIsFirstPresent(dir: string, fileExists: string -> bool)
    ensures var r := DetectProjectType(dir, fileExists);
      && (r.None? <==> forall t :: !Present(dir, t, fileExists))
      && (r.Some? ==> Present(dir, r.value, fileExists))
      && (r.Some? ==> forall t :: Rank(t) < Rank(r.value) ==> !Present(dir, t, fileExists))
  {
    var types := DetectProjectTypes(dir, fileExists);
    if types != [] {
      forall t | Rank(t) < Rank(types[0]) ensures t !in types {
      }
    }
  }

  /** The rule names of `order` whose markers exist, in the order of `order`. */
  function MatchingRules(dir: string, rules: map<string, seq<string>>, order: seq<string>, fileExists: string -> bool)
    : (r: seq<string>)
    requires forall name :: name in order ==> name in rules
    ensures forall name :: name in r <==> name in order && AnyMarkerExists(dir, rules[name], fileExists)
    ensures NoDup(order) ==> NoDup(r)
  {
    if order == [] then []
    else
      var rest := MatchingRules(dir, rules, order[1..], fileExists);
      assert forall name :: name in order <==> name == order[0] || name in order[1..];
      if AnyMarkerExists(dir, rules[order[0]], fileExists) then
        assert NoDup(order) ==> order[0] !in order[1..];
        assert NoDup(order) ==> NoDup(order[1..]) by {
          if NoDup(order) {
            forall i, j | 0 <= i < j < |order[1..]| ensures order[1..][i] != order[1..][j] {
              assert order[1..][i] == order[i + 1] && order[1..][j] == order[j + 1];
            }
          }
        }
        [order[0]] + rest
      else
        assert NoDup(order) ==> NoDup(order[1..]) by {
          if NoDup(order) {
            forall i, j | 0 <= i < j < |order[1..]| ensures order[1..][i] != order[1..][j] {
              assert order[1..][i] == order[i + 1] && order[1..][j] == order[j + 1];
            }
          }
        }
        rest
  }

  /** `detect_project_types_with_rules`: the names of the rules with an existing
      marker. A `HashMap` is iterated in an unspecified order, so the order is a
      parameter: any enumeration of the rule names, each once. */
  function DetectProjectTypesWithRules(dir: string, rules: map<string, seq<string>>, order: seq<string>,
                                       fileExists: string -> bool): (r: seq<string>)
    requires NoDup(order) && Elems(order) == rules.Keys
    ensures Elems(r) == set name | name in rules && AnyMarkerExists(dir, rules[name], fileExists)
    ensures NoDup(r)
  {
    MatchingRules(dir, rules, order, fileExists)
  }

  /** Whatever the iteration order, the same names are found. */
  lemma WithRulesOrderIrrelevant(dir: string, rules: map<string, seq<string>>, o1: seq<string>, o2: seq<string>,
                                 fileExists: string -> bool)
    requires NoDup(o1) && Elems(o1) == rules.Keys && NoDup(o2) && Elems(o2) == rules.Keys
    ensures Elems(DetectProjectTypesWithRules(dir, rules, o1, fileExists))
         == Elems(DetectProjectTypesWithRules(dir, rules, o2, fileExists))
    ensures |DetectProjectTypesWithRules(dir, rules, o1, fileExists)|
         == |DetectProjectTypesWithRules(dir, rules, o2, fileExists)|
  {
    var r1 := DetectProjectTypesWithRules(dir, rules, o1, fileExists);
    var r2 := DetectProjectTypesWithRules(dir, rules, o2, fileExists);
    NoDupCard(r1);
    NoDupCard(r2);
  }
}
