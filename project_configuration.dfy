/**
 * The project configuration: the tree the YAML file parses into, the artifacts a
 * project asks for, and the bundle it describes. Loading and saving the YAML file are
 * left out; the tree is held as the value the YAML component would produce.
 */
module ProjectConfig {
  import opened Wrappers
  import opened PhpStrings
  import opened PhpValues
  import opened OrderedMap
  import opened Artifacts
  import opened Bundles

  /**
   * A parsed YAML value. A scalar holds the string PHP turns it into when it is passed
   * where a string is expected; an array keeps its keys in order.
   */
  datatype Node = Null | Scalar(text: string) | Array(entries: seq<(ArrayKey, Node)>)

  /** `$n[$k] ?? null`. Reading a key of a scalar counts as reading nothing. */
  function Child(n: Node, k: ArrayKey): (r: Node)
    ensures !n.Array? ==> r == Null
  {
    match n
    case Array(es) => Get(es, k).GetOr(Null)
    case _ => Null
  }

  const ScalarAsArray := "Cannot use a scalar value as an array"

  /** `$n[$k] = $v`: an unset value becomes an array; a scalar cannot take a key. */
  function SetChild(n: Node, k: ArrayKey, v: Node): (r: Result<Node>)
    ensures r.Failure? <==> n.Scalar?
    ensures r.Failure? ==> r.error == Error(Fatal, ScalarAsArray)
    ensures r.Success? ==> r.value.Array? && Child(r.value, k) == v
    ensures r.Success? ==> forall k' :: k' != k ==> Child(r.value, k') == Child(n, k')
  {
    match n
    case Null => Success(Array(Put([], k, v)))
    case Array(es) => Success(Array(Put(es, k, v)))
    case Scalar(_) => Failure(Error(Fatal, ScalarAsArray))
  }

  /** `$n[$k1][$k2] = $v`. */
  function SetAt(n: Node, k1: ArrayKey, k2: ArrayKey, v: Node): (r: Result<Node>)
    ensures r.Failure? <==> n.Scalar? || Child(n, k1).Scalar?
    ensures r.Success? ==> Child(Child(r.value, k1), k2) == v
    ensures r.Success? ==> forall a, b :: (a, b) != (k1, k2) ==> Child(Child(r.value, a), b) == Child(Child(n, a), b)
  {
    var inner :- SetChild(Child(n, k1), k2, v);
    SetChild(n, k1, inner)
  }

  /** The index `$a[] = $v` uses: one past the largest integer key, and never below 0. */
  function NextIndex(es: seq<(ArrayKey, Node)>): (r: int)
    ensures r >= 0
    ensures forall i :: 0 <= i < |es| && es[i].0.IntKey? ==> es[i].0.i < r
  {
    if es == [] then 0
    else
      var n := NextIndex(es[..|es| - 1]);
      match es[|es| - 1].0
      case IntKey(i) => if i + 1 > n then i + 1 else n
      case StrKey(_) => n
  }

  /**
   * `$a[] = $v`. When the next index would pass PHP_INT_MAX, PHP only warns and the
   * array stays as it was.
   */
  function Appended(es: seq<(ArrayKey, Node)>, v: Node): (r: seq<(ArrayKey, Node)>)
    ensures NextIndex(es) <= PhpIntMax ==> r == es + [(IntKey(NextIndex(es)), v)]
    ensures NextIndex(es) > PhpIntMax ==> r == es
  {
    var n := NextIndex(es);
    if n > PhpIntMax then es
    else
      assert IntKey(n) !in Keys(es);
      Put(es, IntKey(n), v)
  }

  // ---------------------------------------------------------------------------------
  // Reading artifacts back

  const ArtifactConstructor := "CodePrimer\\Template\\Artifact::__construct()"

  /** The TypeError PHP raises when a parameter declared `string` gets something else. */
  function NotString(callee: string, position: nat, given: string): string
  {
    "Argument " + NatToString(position) + " passed to " + callee + " must be of the type string, " + given + " given"
  }

  /** A value passed to a `string` parameter: a scalar is converted, null and arrays are refused. */
  function StringArg(n: Node, callee: string, position: nat): (r: Result<string>)
    ensures r.Success? <==> n.Scalar?
    ensures r.Success? ==> r.value == n.text
    ensures n.Null? ==> r == Failure(Error(Fatal, NotString(callee, position, "null")))
    ensures n.Array? ==> r == Failure(Error(Fatal, NotString(callee, position, "array")))
  {
    match n
    case Scalar(t) => Success(t)
    case Null => Failure(Error(Fatal, NotString(callee, position, "null")))
    case Array(_) => Failure(Error(Fatal, NotString(callee, position, "array")))
  }

  /** `new Artifact($category, $type, $format, $variant)`: the type is checked before the variant. */
  function Made(category: string, kind: Node, format: string, variant: Node): (r: Result<seq<Artifact>>)
    ensures r.Success? <==> kind.Scalar? && variant.Scalar?
    ensures r.Success? ==> r.value == [Artifact(category, kind.text, format, variant.text)]
    ensures !kind.Scalar? ==> r.Failure? && r.error == StringArg(kind, ArtifactConstructor, 2).error
    ensures kind.Scalar? && !variant.Scalar? ==> r.Failure? && r.error == StringArg(variant, ArtifactConstructor, 4).error
  {
    var k :- StringArg(kind, ArtifactConstructor, 2);
    var v :- StringArg(variant, ArtifactConstructor, 4);
    Success([Artifact(category, k, format, v)])
  }

  /** An array key used as a value: PHP hands an integer key over as its digits. */
  function KeyNode(k: ArrayKey): Node
  {
    Scalar(KeyName(k))
  }

  /** `is_numeric($index)` on an array key. */
  predicate Numeric(k: ArrayKey)
  {
    k.IntKey? || IsNumericString(k.s)
  }

  /**
   * The results of a run of steps, joined in order; the first failure ends the run,
   * as the first exception ends the PHP loop.
   */
  function Flatten<T>(rs: seq<Result<seq<T>>>): Result<seq<T>>
  {
    if rs == [] then Success([])
    else
      var init :- Flatten(rs[..|rs| - 1]);
      var last :- rs[|rs| - 1];
      Success(init + last)
  }

  /** One artifact per variant of a list: `foreach ($artifact as $variant)`. */
  function FromVariants(category: string, kind: Node, format: string, vs: seq<(ArrayKey, Node)>): (rs: seq<Result<seq<Artifact>>>)
    ensures |rs| == |vs|
    ensures forall i :: 0 <= i < |vs| ==> rs[i] == Made(category, kind, format, vs[i].1)
  {
    seq(|vs|, i requires 0 <= i < |vs| => Made(category, kind, format, vs[i].1))
  }

  /** One type of a `[<type> => <variant>]` or `[<type> => [variants]]` entry. */
  function FromType(category: string, format: string, kind: ArrayKey, variant: Node): Result<seq<Artifact>>
  {
    match variant
    case Array(names) => Flatten(FromVariants(category, KeyNode(kind), format, names))
    case _ => Made(category, KeyNode(kind), format, variant)
  }

  function FromTypes(category: string, format: string, ts: seq<(ArrayKey, Node)>): (rs: seq<Result<seq<Artifact>>>)
    ensures |rs| == |ts|
    ensures forall i :: 0 <= i < |ts| ==> rs[i] == FromType(category, format, ts[i].0, ts[i].1)
  {
    seq(|ts|, i requires 0 <= i < |ts| => FromType(category, format, ts[i].0, ts[i].1))
  }

  /**
   * One entry of a format's list, in the five shapes the loop tells apart:
   * `<type> => <variant>`, `index => <type>`, `<type> => [variants]`,
   * `index => [<type> => <variant>]` and `index => [<type> => [variants]]`.
   */
  function FromEntry(category: string, format: string, index: ArrayKey, artifact: Node): Result<seq<Artifact>>
  {
    match artifact
    case Array(es) =>
      if !Numeric(index) then Flatten(FromVariants(category, KeyNode(index), format, es))
      else Flatten(FromTypes(category, format, es))
    case _ =>
      if !Numeric(index) then Made(category, KeyNode(index), format, artifact)
      else Made(category, artifact, format, Scalar(""))
  }

  function FromEntries(category: string, format: string, es: seq<(ArrayKey, Node)>): (rs: seq<Result<seq<Artifact>>>)
    ensures |rs| == |es|
    ensures forall i :: 0 <= i < |es| ==> rs[i] == FromEntry(category, format, es[i].0, es[i].1)
  {
    seq(|es|, i requires 0 <= i < |es| => FromEntry(category, format, es[i].0, es[i].1))
  }

  /** A format's value: a list of entries, or a bare type (the sixth shape). */
  function FromFormat(category: string, format: ArrayKey, artifacts: Node): Result<seq<Artifact>>
  {
    match artifacts
    case Array(es) => Flatten(FromEntries(category, KeyName(format), es))
    case _ => Made(category, artifacts, KeyName(format), Scalar(""))
  }

  function FromFormats(category: string, fs: seq<(ArrayKey, Node)>): (rs: seq<Result<seq<Artifact>>>)
    ensures |rs| == |fs|
    ensures forall i :: 0 <= i < |fs| ==> rs[i] == FromFormat(category, fs[i].0, fs[i].1)
  {
    seq(|fs|, i requires 0 <= i < |fs| => FromFormat(category, fs[i].0, fs[i].1))
  }

  const ArtifactsKey := StrKey("artifacts")

  /** The node `$configuration['artifacts'][$category]`. */
  function CategoryNode(config: Node, category: string): Node
  {
    Child(Child(config, ArtifactsKey), KeyOf(category))
  }

  /** `getArtifacts($category)`; a category that is unset or not an array gives nothing. */
  function ArtifactsOf(config: Node, category: string): Result<seq<Artifact>>
  {
    match CategoryNode(config, category)
    case Array(fs) => Flatten(FromFormats(category, fs))
    case _ => Success([])
  }

  /** The categories `getAllArtifacts` reads, in its order. */
  const AllCategories: seq<string> := [Code, Configuration, Documentation, Project, Tests]

  /** `getAllArtifacts`: the categories' artifacts one after the other. */
  function AllArtifactsOf(config: Node): Result<seq<Artifact>>
  {
    var code :- ArtifactsOf(config, Code);
    var configuration :- ArtifactsOf(config, Configuration);
    var documentation :- ArtifactsOf(config, Documentation);
    var project :- ArtifactsOf(config, Project);
    var tests :- ArtifactsOf(config, Tests);
    Success(code + configuration + documentation + project + tests)
  }

  // ---------------------------------------------------------------------------------
  // Adding artifacts

  /** What `addArtifact` appends: the bare type, or `[type => variant]` when the variant is not empty. */
  function Written(a: Artifact): Node
  {
    if IsEmpty(a.variant) then Scalar(a.kind) else Array([(KeyOf(a.kind), Scalar(a.variant))])
  }

  /** The list under a format: its entries, or none when it is unset. */
  function ListOf(n: Node): seq<(ArrayKey, Node)>
  {
    match n
    case Array(es) => es
    case _ => []
  }

  /**
   * `addArtifact` on the category's node: the format's list (empty when unset) gets the
   * entry appended and is written back, the category becoming an array when unset; a
   * scalar category or format cannot take a key.
   */
  function AddedToCategory(category: Node, a: Artifact): (r: Result<Node>)
    ensures r.Failure? <==> category.Scalar? || Child(category, KeyOf(a.format)).Scalar?
    ensures r.Failure? ==> r.error == Error(Fatal, ScalarAsArray)
    ensures r.Success? ==> r.value.Array?
    ensures r.Success? ==> Child(r.value, KeyOf(a.format)) == Array(Appended(ListOf(Child(category, KeyOf(a.format))), Written(a)))
    ensures r.Success? ==> forall k :: k != KeyOf(a.format) ==> Child(r.value, k) == Child(category, k)
  {
    var key := KeyOf(a.format);
    var list := Child(category, key);
    if list.Scalar? then Failure(Error(Fatal, ScalarAsArray))
    else SetChild(category, key, Array(Appended(ListOf(list), Written(a))))
  }

  /**
   * `addArtifact` on the whole configuration. Every failing write fails before any
   * write has happened, so a failure leaves the configuration as it was.
   */
  function AddedArtifact(config: Node, a: Artifact): (r: Result<Node>)
    ensures r.Failure? <==> config.Scalar? || Child(config, ArtifactsKey).Scalar? || AddedToCategory(CategoryNode(config, a.category), a).Failure?
    ensures r.Failure? ==> r.error == Error(Fatal, ScalarAsArray)
    ensures r.Success? ==> r.value.Array? && Child(r.value, ArtifactsKey).Array?
    ensures r.Success? ==> CategoryNode(r.value, a.category) == AddedToCategory(CategoryNode(config, a.category), a).value
    ensures r.Success? ==> forall k :: k != KeyOf(a.category) ==> Child(Child(r.value, ArtifactsKey), k) == Child(Child(config, ArtifactsKey), k)
    ensures r.Success? ==> forall k :: k != ArtifactsKey ==> Child(r.value, k) == Child(config, k)
  {
    var artifacts := Child(config, ArtifactsKey);
    var category :- AddedToCategory(Child(artifacts, KeyOf(a.category)), a);
    var artifacts' :- SetChild(artifacts, KeyOf(a.category), category);
    SetChild(config, ArtifactsKey, artifacts')
  }

  /** `array_change_key_case`: string keys lower-cased; a later key that collides wins. */
  function LowerKeys(es: seq<(ArrayKey, Node)>): seq<(ArrayKey, Node)>
  {
    if es == [] then []
    else
      var last := es[|es| - 1];
      Put(LowerKeys(es[..|es| - 1]), LowerKey(last.0), last.1)
  }

  function LowerKey(k: ArrayKey): ArrayKey
  {
    match k
    case IntKey(_) => k
    case StrKey(s) => StrKey(Lower(s))
  }

  const MySql := "mysql"

  /**
   * `isRelationalDatabaseConfigured`. For a code category that is not an array,
   * `array_change_key_case` only warns and returns null, so the answer is false.
   */
  predicate RelationalIn(config: Node)
  {
    match CategoryNode(config, Code)
    case Array(fs) => Get(LowerKeys(fs), StrKey(MySql)).GetOr(Null) != Null
    case _ => false
  }

  /** The value under the last key that lower-cases to `k`: the one `array_change_key_case` keeps. */
  function LastWith(es: seq<(ArrayKey, Node)>, k: ArrayKey): Option<Node>
  {
    if es == [] then None
    else if LowerKey(es[|es| - 1].0) == k then Some(es[|es| - 1].1)
    else LastWith(es[..|es| - 1], k)
  }

  /** Lower-casing the keys keeps, for each lower-cased key, the last value written. */
  lemma {:induction false} LowerKeysGet(es: seq<(ArrayKey, Node)>, k: ArrayKey)
    ensures Get(LowerKeys(es), k) == LastWith(es, k)
    decreases |es|
  {
    if es != [] {
      LowerKeysGet(es[..|es| - 1], k);
    }
  }

  /** Where no value is null, some key lower-cases to `k` exactly when the last one has a value. */
  lemma {:induction false} LastWithFound(es: seq<(ArrayKey, Node)>, k: ArrayKey)
    requires forall i :: 0 <= i < |es| ==> es[i].1 != Null
    ensures LastWith(es, k).GetOr(Null) != Null <==> exists i :: 0 <= i < |es| && LowerKey(es[i].0) == k
    decreases |es|
  {
    if es != [] {
      var init := es[..|es| - 1];
      LastWithFound(init, k);
      if LowerKey(es[|es| - 1].0) == k {
        assert LowerKey(es[|es| - 1].0) == k;
      } else if exists i :: 0 <= i < |es| && LowerKey(es[i].0) == k {
        var i :| 0 <= i < |es| && LowerKey(es[i].0) == k;
        assert init[i] == es[i];
      }
    }
  }

  /** Every format of a category holds something, as after `addArtifact`. */
  predicate NoNulls(n: Node)
  {
    n.Array? ==> forall i :: 0 <= i < |n.entries| ==> n.entries[i].1 != Null
  }

  /** The code category has a format key that lower-cases to "mysql". */
  predicate HasMySqlKey(n: Node)
  {
    n.Array? && exists i :: 0 <= i < |n.entries| && LowerKey(n.entries[i].0) == StrKey(MySql)
  }

  /**
   * `isRelationalDatabaseConfigured` is true exactly when the code category has a
   * format key that is "mysql" in any case, and the last such key holds a value.
   */
  lemma RelationalExactly(config: Node)
    ensures RelationalIn(config) <==> CategoryNode(config, Code).Array? && LastWith(CategoryNode(config, Code).entries, StrKey(MySql)).GetOr(Null) != Null
    ensures NoNulls(CategoryNode(config, Code)) ==> (RelationalIn(config) <==> HasMySqlKey(CategoryNode(config, Code)))
  {
    var n := CategoryNode(config, Code);
    if n.Array? {
      LowerKeysGet(n.entries, StrKey(MySql));
      if NoNulls(n) {
        LastWithFound(n.entries, StrKey(MySql));
      }
    }
  }

  /** After adding a code artifact whose format is "mysql" in any case, the check holds. */
  lemma RelationalAfterAdd(config: Node, a: Artifact)
    requires a.category == Code && LowerKey(KeyOf(a.format)) == StrKey(MySql)
    requires NoNulls(CategoryNode(config, Code))
    requires AddedArtifact(config, a).Success?
    ensures RelationalIn(AddedArtifact(config, a).value)
    ensures NoNulls(CategoryNode(AddedArtifact(config, a).value, Code))
  {
    var before := CategoryNode(config, Code);
    var key := KeyOf(a.format);
    var v := Array(Appended(ListOf(Child(before, key)), Written(a)));
    AddedToCategoryPut(before, a);
    var n := CategoryNode(AddedArtifact(config, a).value, Code);
    assert n == Array(Put(ListOf(before), key, v));
    PutNoNulls(ListOf(before), key, v);
    hide AddedArtifact, AddedToCategory, Put, CategoryNode;
    assert HasMySqlKey(n);
    RelationalExactly(AddedArtifact(config, a).value);
  }

  /** What a successful add makes of the category node, written out. */
  lemma AddedToCategoryPut(category: Node, a: Artifact)
    requires AddedToCategory(category, a).Success?
    ensures AddedToCategory(category, a).value == Array(Put(ListOf(category), KeyOf(a.format), Array(Appended(ListOf(Child(category, KeyOf(a.format))), Written(a)))))
  {
  }

  /** A write of a value keeps a list free of nulls, and its key is then present. */
  lemma PutNoNulls(fs: seq<(ArrayKey, Node)>, k: ArrayKey, v: Node)
    requires v != Null && NoNulls(Array(fs))
    ensures NoNulls(Array(Put(fs, k, v)))
    ensures exists j :: 0 <= j < |Put(fs, k, v)| && Put(fs, k, v)[j].0 == k
  {
    var r := Put(fs, k, v);
    PutEntries(fs, k, v);
    forall i | 0 <= i < |r| ensures r[i].1 != Null {
      assert r[i] in r;
    }
    PutKeepsKeys(fs, k, v);
    assert k in Keys(r);
  }

  // ---------------------------------------------------------------------------------
  // The bundle section

  const BundleKey := StrKey("bundle")
  const PathKey := StrKey("path")
  const NameKey := StrKey("name")
  const NamespaceKey := StrKey("namespace")
  const DescriptionKey := StrKey("description")

  /** The TypeError of a function declared `: string` that returns something else. */
  function Returned(given: string): string
  {
    "Return value must be of type string, " + given + " returned"
  }

  /** A value returned from a function declared `: string`. */
  function StringReturn(n: Node): (r: Result<string>)
    ensures r.Success? <==> n.Scalar?
    ensures r.Success? ==> r.value == n.text
    ensures n.Null? ==> r == Failure(Error(Fatal, StringGotNull))
  {
    match n
    case Scalar(t) => Success(t)
    case Null => Failure(Error(Fatal, Returned("null")))
    case Array(_) => Failure(Error(Fatal, Returned("array")))
  }

  /** `getPath`. */
  function PathOf(config: Node): Result<string>
  {
    StringReturn(Child(Child(config, BundleKey), PathKey))
  }

  /** The parts of a bundle as a configuration holds them. */
  datatype BundleParts = BundleParts(namespace: string, name: string, description: Option<string>)

  const RTrimArray := "rtrim() expects parameter 1 to be string, array given"

  /**
   * What `getBusinessBundle` builds. The namespace goes through `rtrim`, which turns
   * null into the empty string; the constructor takes two parameters, so the
   * description that is passed as a third is dropped.
   */
  function LoadedBundle(config: Node): (r: Result<BundleParts>)
    ensures r.Success? ==> r.value.description == None
  {
    var bundle := Child(config, BundleKey);
    var namespace :- match Child(bundle, NamespaceKey)
      case Null => Success("")
      case Scalar(t) => Success(t)
      case Array(_) => Failure(Error(Fatal, RTrimArray));
    var name :- StringReturn(Child(bundle, NameKey));
    Success(BundleParts(RTrim(namespace, NamespaceTrim), name, None))
  }

  /**
   * `setBusinessBundle`: the name, then the namespace, then the description are
   * written. A bundle without a description fails after the first two writes, which stay.
   */
  function StoredBundle(config: Node, b: BundleParts): (r: (Node, Outcome))
  {
    match SetAt(config, BundleKey, NameKey, Scalar(b.name))
    case Failure(e) => (config, Fail(e))
    case Success(c1) =>
      match SetAt(c1, BundleKey, NamespaceKey, Scalar(b.namespace))
      case Failure(e) => (c1, Fail(e))
      case Success(c2) =>
        match b.description
        case None => (c2, Fail(Error(Fatal, StringGotNull)))
        case Some(d) =>
          match SetAt(c2, BundleKey, DescriptionKey, Scalar(d))
          case Failure(e) => (c2, Fail(e))
          case Success(c3) => (c3, Done)
  }

  /**
   * What `getBusinessBundle` evidently means to build: the bundle with its stored
   * description, when there is one. The rest of this model reads bundles this way.
   */
  function LoadedBundleIntended(config: Node): (r: Result<BundleParts>)
    ensures r.Success? <==> LoadedBundle(config).Success?
    ensures r.Failure? ==> r.error == LoadedBundle(config).error
    ensures r.Success? ==> r.value.(description := None) == LoadedBundle(config).value
    ensures r.Success? ==> (r.value.description.Some? <==> Child(Child(config, BundleKey), DescriptionKey).Scalar?)
  {
    var parts :- LoadedBundle(config);
    match Child(Child(config, BundleKey), DescriptionKey)
    case Scalar(d) => Success(parts.(description := Some(d)))
    case _ => Success(parts)
  }

  /**
   * `setBusinessBundle` then `getBusinessBundle` as written: once the first write
   * succeeds, the name and the trimmed namespace come back and the run completes
   * exactly when the bundle has a description; but the description never comes back.
   */
  lemma DescriptionLost(config: Node, b: BundleParts)
    requires SetAt(config, BundleKey, NameKey, Scalar(b.name)).Success?
    ensures StoredBundle(config, b).1.Done? <==> b.description.Some?
    ensures LoadedBundle(StoredBundle(config, b).0) == Success(BundleParts(RTrim(b.namespace, NamespaceTrim), b.name, None))
  {
    var c1 := SetAt(config, BundleKey, NameKey, Scalar(b.name)).value;
    var c2 := SetAt(c1, BundleKey, NamespaceKey, Scalar(b.namespace)).value;
    assert Child(Child(c2, BundleKey), NameKey) == Child(Child(c1, BundleKey), NameKey);
    if b.description.Some? {
      var c3 := SetAt(c2, BundleKey, DescriptionKey, Scalar(b.description.value)).value;
      assert Child(Child(c3, BundleKey), NameKey) == Scalar(b.name);
      assert Child(Child(c3, BundleKey), NamespaceKey) == Scalar(b.namespace);
    }
  }

  /** The corrected read: a bundle stored whole comes back whole. */
  lemma BundleRoundTrip(config: Node, b: BundleParts)
    requires SetAt(config, BundleKey, NameKey, Scalar(b.name)).Success?
    requires StoredBundle(config, b).1.Done?
    ensures LoadedBundleIntended(StoredBundle(config, b).0) == Success(BundleParts(RTrim(b.namespace, NamespaceTrim), b.name, b.description))
    ensures RTrim(b.namespace, NamespaceTrim) == b.namespace ==> LoadedBundleIntended(StoredBundle(config, b).0) == Success(b)
  {
    DescriptionLost(config, b);
    var c1 := SetAt(config, BundleKey, NameKey, Scalar(b.name)).value;
    var c2 := SetAt(c1, BundleKey, NamespaceKey, Scalar(b.namespace)).value;
    var c3 := SetAt(c2, BundleKey, DescriptionKey, Scalar(b.description.value)).value;
    assert StoredBundle(config, b).0 == c3;
    hide *;
    DescriptionWritten(c2, b.description.value);
    DescriptionRead(c3, BundleParts(RTrim(b.namespace, NamespaceTrim), b.name, None), b.description.value);
  }

  lemma DescriptionWritten(c: Node, d: string)
    requires SetAt(c, BundleKey, DescriptionKey, Scalar(d)).Success?
    ensures Child(Child(SetAt(c, BundleKey, DescriptionKey, Scalar(d)).value, BundleKey), DescriptionKey) == Scalar(d)
  {
  }

  lemma DescriptionRead(c: Node, parts: BundleParts, d: string)
    requires LoadedBundle(c) == Success(parts)
    requires Child(Child(c, BundleKey), DescriptionKey) == Scalar(d)
    ensures LoadedBundleIntended(c) == Success(parts.(description := Some(d)))
  {
  }

  /** Reading a category looks at that category's node only. */
  lemma SameCategoryRead(c1: Node, c2: Node, category: string)
    requires CategoryNode(c1, category) == CategoryNode(c2, category)
    ensures ArtifactsOf(c1, category) == ArtifactsOf(c2, category)
  {
  }

  /** Reading the bundle looks at its name, namespace and description only. */
  lemma SameBundleRead(c1: Node, c2: Node)
    requires Child(Child(c1, BundleKey), NameKey) == Child(Child(c2, BundleKey), NameKey)
    requires Child(Child(c1, BundleKey), NamespaceKey) == Child(Child(c2, BundleKey), NamespaceKey)
    requires Child(Child(c1, BundleKey), DescriptionKey) == Child(Child(c2, BundleKey), DescriptionKey)
    ensures LoadedBundleIntended(c1) == LoadedBundleIntended(c2)
  {
  }

  /** A write under the bundle key leaves every category's artifacts as they were. */
  lemma BundleWriteKeepsArtifacts(config: Node, k: ArrayKey, v: Node)
    requires SetAt(config, BundleKey, k, v).Success?
    ensures forall category :: ArtifactsOf(SetAt(config, BundleKey, k, v).value, category) == ArtifactsOf(config, category)
  {
    var c := SetAt(config, BundleKey, k, v).value;
    forall category ensures ArtifactsOf(c, category) == ArtifactsOf(config, category) {
      assert Child(Child(c, ArtifactsKey), KeyOf(category)) == Child(Child(config, ArtifactsKey), KeyOf(category));
      SameCategoryRead(c, config, category);
    }
  }

  /** Storing a bundle leaves the path and every category's artifacts as they were. */
  lemma BundleKeepsTheRest(config: Node, b: BundleParts)
    ensures PathOf(StoredBundle(config, b).0) == PathOf(config)
    ensures forall category :: ArtifactsOf(StoredBundle(config, b).0, category) == ArtifactsOf(config, category)
  {
    var w1 := SetAt(config, BundleKey, NameKey, Scalar(b.name));
    if w1.Success? {
      var c1 := w1.value;
      var c2 := SetAt(c1, BundleKey, NamespaceKey, Scalar(b.namespace)).value;
      BundleWriteKeepsPath(config, NameKey, Scalar(b.name));
      BundleWriteKeepsPath(c1, NamespaceKey, Scalar(b.namespace));
      if b.description.Some? {
        DescriptionWriteKeepsTheRest(c2, b.description.value);
      }
    }
  }

  lemma DescriptionWriteKeepsTheRest(c2: Node, d: string)
    requires !c2.Scalar? && !Child(c2, BundleKey).Scalar?
    ensures SetAt(c2, BundleKey, DescriptionKey, Scalar(d)).Success?
    ensures PathOf(SetAt(c2, BundleKey, DescriptionKey, Scalar(d)).value) == PathOf(c2)
    ensures forall category :: ArtifactsOf(SetAt(c2, BundleKey, DescriptionKey, Scalar(d)).value, category) == ArtifactsOf(c2, category)
  {
    BundleWriteKeepsPath(c2, DescriptionKey, Scalar(d));
  }

  /** A write under the bundle key beside the path keeps the path and the artifacts. */
  lemma BundleWriteKeepsPath(config: Node, k: ArrayKey, v: Node)
    requires SetAt(config, BundleKey, k, v).Success? && k != PathKey
    ensures PathOf(SetAt(config, BundleKey, k, v).value) == PathOf(config)
    ensures forall category :: ArtifactsOf(SetAt(config, BundleKey, k, v).value, category) == ArtifactsOf(config, category)
  {
    BundleWriteKeepsArtifacts(config, k, v);
    var c := SetAt(config, BundleKey, k, v).value;
    assert Child(Child(c, BundleKey), PathKey) == Child(Child(config, BundleKey), PathKey);
  }

  /** `setPath` then `getPath` gives the path back; the bundle and the artifacts stay as they were. */
  lemma PathRoundTrip(config: Node, path: string)
    requires SetAt(config, BundleKey, PathKey, Scalar(path)).Success?
    ensures PathOf(SetAt(config, BundleKey, PathKey, Scalar(path)).value) == Success(path)
    ensures LoadedBundleIntended(SetAt(config, BundleKey, PathKey, Scalar(path)).value) == LoadedBundleIntended(config)
    ensures forall category :: ArtifactsOf(SetAt(config, BundleKey, PathKey, Scalar(path)).value, category) == ArtifactsOf(config, category)
  {
    var c := SetAt(config, BundleKey, PathKey, Scalar(path)).value;
    assert Child(Child(c, BundleKey), NameKey) == Child(Child(config, BundleKey), NameKey);
    assert Child(Child(c, BundleKey), NamespaceKey) == Child(Child(config, BundleKey), NamespaceKey);
    assert Child(Child(c, BundleKey), DescriptionKey) == Child(Child(config, BundleKey), DescriptionKey);
    SameBundleRead(c, config);
    BundleWriteKeepsArtifacts(config, PathKey, Scalar(path));
  }

  /**
   * `addArtifact` changes only its own category: the other categories, the path and
   * the bundle read back as before.
   */
  lemma AddKeepsTheRest(config: Node, a: Artifact)
    requires AddedArtifact(config, a).Success?
    ensures forall c :: c != a.category ==> ArtifactsOf(AddedArtifact(config, a).value, c) == ArtifactsOf(config, c)
    ensures PathOf(AddedArtifact(config, a).value) == PathOf(config)
    ensures LoadedBundleIntended(AddedArtifact(config, a).value) == LoadedBundleIntended(config)
  {
    var r := AddedArtifact(config, a).value;
    forall c | c != a.category ensures ArtifactsOf(r, c) == ArtifactsOf(config, c) {
      if KeyOf(c) == KeyOf(a.category) {
        KeyOfInjective(c, a.category);
      }
      assert CategoryNode(r, c) == CategoryNode(config, c);
      SameCategoryRead(r, config, c);
    }
    assert Child(r, BundleKey) == Child(config, BundleKey);
    SameBundleRead(r, config);
  }

  class ProjectConfiguration {
    var configuration: Node

    constructor ()
      ensures configuration == Null
    {
      configuration := Null;
    }

    function GetPath(): (r: Result<string>)
      reads this
      ensures r == PathOf(configuration)
    {
      PathOf(configuration)
    }

    method SetPath(path: string) returns (r: Outcome)
      modifies this
      ensures r.Done? ==> SetAt(old(configuration), BundleKey, PathKey, Scalar(path)) == Success(configuration)
      ensures r.Fail? ==> configuration == old(configuration) && r.error == Error(Fatal, ScalarAsArray)
      ensures r.Done? <==> SetAt(old(configuration), BundleKey, PathKey, Scalar(path)).Success?
    {
      var w := SetAt(configuration, BundleKey, PathKey, Scalar(path));
      if w.Failure? {
        return Fail(w.error);
      }
      configuration := w.value;
      r := Done;
    }

    method GetBusinessBundle() returns (r: Result<BusinessBundle>)
      ensures r.Success? <==> LoadedBundleIntended(configuration).Success?
      ensures r.Failure? ==> r.error == LoadedBundleIntended(configuration).error
      ensures r.Success? ==> fresh(r.value) && BundleParts(r.value.namespace, r.value.name, r.value.description) == LoadedBundleIntended(configuration).value
    {
      var parts := LoadedBundleIntended(configuration);
      if parts.Failure? {
        return Failure(parts.error);
      }
      var bundle := Child(configuration, BundleKey);
      var namespace := match Child(bundle, NamespaceKey) case Scalar(t) => t case _ => "";
      var b := new BusinessBundle(namespace, parts.value.name);
      match Child(bundle, DescriptionKey) {
        case Scalar(d) => b := b.SetDescription(d);
        case _ =>
      }
      r := Success(b);
    }

    method SetBusinessBundle(bundle: BusinessBundle) returns (r: Outcome)
      modifies this
      ensures (configuration, r) == StoredBundle(old(configuration), BundleParts(bundle.namespace, bundle.name, bundle.description))
    {
      var w := SetAt(configuration, BundleKey, NameKey, Scalar(bundle.name));
      if w.Failure? {
        return Fail(w.error);
      }
      configuration := w.value;
      w := SetAt(configuration, BundleKey, NamespaceKey, Scalar(bundle.namespace));
      configuration := w.value;
      var description := bundle.GetDescription();
      if description.Failure? {
        return Fail(description.error);
      }
      w := SetAt(configuration, BundleKey, DescriptionKey, Scalar(description.value));
      configuration := w.value;
      r := Done;
    }

    method GetAllArtifacts() returns (r: Result<seq<Artifact>>)
      ensures r == AllArtifactsOf(configuration)
    {
      var code := GetArtifacts(Code);
      if code.Failure? {
        return code;
      }
      var all := code.value;
      var more := GetArtifacts(Configuration);
      if more.Failure? {
        return more;
      }
      all := all + more.value;
      more := GetArtifacts(Documentation);
      if more.Failure? {
        return more;
      }
      all := all + more.value;
      more := GetArtifacts(Project);
      if more.Failure? {
        return more;
      }
      all := all + more.value;
      more := GetArtifacts(Tests);
      if more.Failure? {
        return more;
      }
      all := all + more.value;
      r := Success(all);
    }

    method GetArtifacts(category: string) returns (r: Result<seq<Artifact>>)
      ensures r == ArtifactsOf(configuration, category)
    {
      var node := CategoryNode(configuration, category);
      if !node.Array? {
        return Success([]);
      }
      var fs := node.entries;
      ghost var rs := FromFormats(category, fs);
      var results: seq<Artifact> := [];
      var i := 0;
      while i < |fs|
        invariant i <= |fs|
        invariant Flatten(rs[..i]) == Success(results)
      {
        var one := DecodeFormat(category, fs[i].0, fs[i].1);
        if one.Failure? {
          FlattenFails(rs, i);
          return Failure(one.error);
        }
        FlattenStep(rs, i);
        results := results + one.value;
        i := i + 1;
      }
      assert rs[..i] == rs;
      r := Success(results);
    }

    method AddArtifact(a: Artifact) returns (r: Outcome)
      modifies this
      ensures r.Done? <==> AddedArtifact(old(configuration), a).Success?
      ensures r.Done? ==> configuration == AddedArtifact(old(configuration), a).value
      ensures r.Fail? ==> configuration == old(configuration) && r.error == AddedArtifact(old(configuration), a).error
    {
      var w := AddedArtifact(configuration, a);
      if w.Failure? {
        return Fail(w.error);
      }
      configuration := w.value;
      r := Done;
    }

    predicate IsRelationalDatabaseConfigured()
      reads this
    {
      RelationalIn(configuration)
    }
  }

  /** A format's value: the outer `foreach ($artifacts as $index => $artifact)`. */
  method DecodeFormat(category: string, format: ArrayKey, artifacts: Node) returns (r: Result<seq<Artifact>>)
    ensures r == FromFormat(category, format, artifacts)
  {
    if !artifacts.Array? {
      return Made(category, artifacts, KeyName(format), Scalar(""));
    }
    var es := artifacts.entries;
    ghost var rs := FromEntries(category, KeyName(format), es);
    var results: seq<Artifact> := [];
    var i := 0;
    while i < |es|
      invariant i <= |es|
      invariant Flatten(rs[..i]) == Success(results)
    {
      var one := DecodeEntry(category, KeyName(format), es[i].0, es[i].1);
      if one.Failure? {
        FlattenFails(rs, i);
        return Failure(one.error);
      }
      FlattenStep(rs, i);
      results := results + one.value;
      i := i + 1;
    }
    assert rs[..i] == rs;
    r := Success(results);
  }

  /** One entry of a format's list, shape by shape. */
  method DecodeEntry(category: string, format: string, index: ArrayKey, artifact: Node) returns (r: Result<seq<Artifact>>)
    ensures r == FromEntry(category, format, index, artifact)
  {
    if !artifact.Array? {
      if !Numeric(index) {
        r := Made(category, KeyNode(index), format, artifact);
      } else {
        r := Made(category, artifact, format, Scalar(""));
      }
    } else if !Numeric(index) {
      r := DecodeVariants(category, KeyNode(index), format, artifact.entries);
    } else {
      r := DecodeTypes(category, format, artifact.entries);
    }
  }

  /** `foreach ($artifact as $type => $variant)`: a variant, or a list of them, per type. */
  method DecodeTypes(category: string, format: string, ts: seq<(ArrayKey, Node)>) returns (r: Result<seq<Artifact>>)
    ensures r == Flatten(FromTypes(category, format, ts))
  {
    ghost var rs := FromTypes(category, format, ts);
    var results: seq<Artifact> := [];
    var i := 0;
    while i < |ts|
      invariant i <= |ts|
      invariant Flatten(rs[..i]) == Success(results)
    {
      var one: Result<seq<Artifact>>;
      if ts[i].1.Array? {
        one := DecodeVariants(category, KeyNode(ts[i].0), format, ts[i].1.entries);
      } else {
        one := Made(category, KeyNode(ts[i].0), format, ts[i].1);
      }
      if one.Failure? {
        FlattenFails(rs, i);
        return Failure(one.error);
      }
      FlattenStep(rs, i);
      results := results + one.value;
      i := i + 1;
    }
    assert rs[..i] == rs;
    r := Success(results);
  }

  /** `foreach ($artifact as $variant)`: one artifact per variant. */
  method DecodeVariants(category: string, kind: Node, format: string, vs: seq<(ArrayKey, Node)>) returns (r: Result<seq<Artifact>>)
    ensures r == Flatten(FromVariants(category, kind, format, vs))
  {
    ghost var rs := FromVariants(category, kind, format, vs);
    var results: seq<Artifact> := [];
    var i := 0;
    while i < |vs|
      invariant i <= |vs|
      invariant Flatten(rs[..i]) == Success(results)
    {
      var one := Made(category, kind, format, vs[i].1);
      if one.Failure? {
        FlattenFails(rs, i);
        return Failure(one.error);
      }
      FlattenStep(rs, i);
      results := results + one.value;
      i := i + 1;
    }
    assert rs[..i] == rs;
    r := Success(results);
  }

  // ---------------------------------------------------------------------------------
  // Joining results

  lemma FlattenStep<T>(rs: seq<Result<seq<T>>>, i: nat)
    requires i < |rs|
    requires Flatten(rs[..i]).Success? && rs[i].Success?
    ensures Flatten(rs[..i + 1]) == Success(Flatten(rs[..i]).value + rs[i].value)
  {
    assert rs[..i + 1][..i] == rs[..i];
  }

  /** A failing step is the result of the whole run when every step before it succeeded. */
  lemma FlattenFails<T>(rs: seq<Result<seq<T>>>, i: nat)
    requires i < |rs|
    requires Flatten(rs[..i]).Success? && rs[i].Failure?
    ensures Flatten(rs) == Failure(rs[i].error)
  {
    assert rs[..i + 1][..i] == rs[..i];
    FlattenKeepsFailure(rs, i + 1);
  }

  /** Once a prefix fails, so does every longer run, with the same error. */
  lemma {:induction false} FlattenKeepsFailure<T>(rs: seq<Result<seq<T>>>, j: nat)
    requires j <= |rs|
    requires Flatten(rs[..j]).Failure?
    ensures Flatten(rs) == Flatten(rs[..j])
    decreases |rs| - j
  {
    if j < |rs| {
      assert rs[..j + 1][..j] == rs[..j];
      FlattenKeepsFailure(rs, j + 1);
    } else {
      assert rs[..j] == rs;
    }
  }

  // ---------------------------------------------------------------------------------
  // What a category holds after a run of `addArtifact` calls

  /** Each artifact's format, in the order added. */
  function FormatNames(xs: seq<Artifact>): (r: seq<string>)
    ensures |r| == |xs|
    ensures forall i :: 0 <= i < |xs| ==> r[i] == xs[i].format
  {
    if xs == [] then [] else FormatNames(xs[..|xs| - 1]) + [xs[|xs| - 1].format]
  }

  /** The formats in the order they first appear. */
  function FormatsOf(xs: seq<Artifact>): seq<string>
  {
    Dedup(FormatNames(xs))
  }

  /** The entries written under format `f`, in the order added. */
  function Stored(xs: seq<Artifact>, f: string): seq<Node>
  {
    if xs == [] then []
    else if xs[|xs| - 1].format == f then Stored(xs[..|xs| - 1], f) + [Written(xs[|xs| - 1])]
    else Stored(xs[..|xs| - 1], f)
  }

  /** A list as PHP's `[] =` builds it: keys 0, 1, 2, ... */
  function Numbered(ns: seq<Node>): (r: seq<(ArrayKey, Node)>)
    ensures |r| == |ns|
    ensures forall i :: 0 <= i < |ns| ==> r[i] == (IntKey(i), ns[i])
  {
    seq(|ns|, i requires 0 <= i < |ns| => (IntKey(i), ns[i]))
  }

  /** The category's formats, each with its list of entries. */
  function Groups(xs: seq<Artifact>, fs: seq<string>): (r: seq<(ArrayKey, Node)>)
    ensures |r| == |fs|
    ensures forall i :: 0 <= i < |fs| ==> r[i] == (KeyOf(fs[i]), Array(Numbered(Stored(xs, fs[i]))))
  {
    seq(|fs|, i requires 0 <= i < |fs| => (KeyOf(fs[i]), Array(Numbered(Stored(xs, fs[i])))))
  }

  /** The category node after adding `xs` to a category that was unset. */
  function CategoryAfter(xs: seq<Artifact>): Node
  {
    if xs == [] then Null else Array(Groups(xs, FormatsOf(xs)))
  }

  /** How an artifact reads back: a variant PHP counts as empty comes back as none. */
  function Normalised(a: Artifact): Artifact
  {
    Artifact(a.category, a.kind, a.format, if IsEmpty(a.variant) then "" else a.variant)
  }

  /** The artifacts of format `f`, normalised, in the order added. */
  function OfFormat(xs: seq<Artifact>, f: string): seq<Artifact>
  {
    if xs == [] then []
    else if xs[|xs| - 1].format == f then OfFormat(xs[..|xs| - 1], f) + [Normalised(xs[|xs| - 1])]
    else OfFormat(xs[..|xs| - 1], f)
  }

  /** Format by format, each format's artifacts in the order added. */
  function Grouped(xs: seq<Artifact>, fs: seq<string>): seq<Artifact>
  {
    if fs == [] then [] else Grouped(xs, fs[..|fs| - 1]) + OfFormat(xs, fs[|fs| - 1])
  }

  /** Artifacts added one after the other; the first failure stops the run. */
  function AddedAll(config: Node, xs: seq<Artifact>): Result<Node>
  {
    if xs == [] then Success(config)
    else
      var c :- AddedAll(config, xs[..|xs| - 1]);
      AddedArtifact(c, xs[|xs| - 1])
  }

  predicate SameCategory(xs: seq<Artifact>, c: string)
  {
    forall i :: 0 <= i < |xs| ==> xs[i].category == c
  }

  /** Distinct strings are distinct keys. */
  lemma KeyOfInjective(s: string, t: string)
    requires KeyOf(s) == KeyOf(t)
    ensures s == t
  {
    KeyNameOfKey(s);
    KeyNameOfKey(t);
  }

  lemma {:induction false} NextIndexNumbered(ns: seq<Node>)
    ensures NextIndex(Numbered(ns)) == |ns|
    decreases |ns|
  {
    if ns != [] {
      var init := ns[..|ns| - 1];
      assert Numbered(ns)[..|ns| - 1] == Numbered(init);
      NextIndexNumbered(init);
    }
  }

  lemma StoredNothing(xs: seq<Artifact>, f: string)
    requires f !in FormatNames(xs)
    ensures Stored(xs, f) == []
  {
    if xs != [] {
      assert FormatNames(xs[..|xs| - 1]) == FormatNames(xs)[..|xs| - 1];
      StoredNothing(xs[..|xs| - 1], f);
    }
  }

  lemma GroupsDistinct(xs: seq<Artifact>, fs: seq<string>)
    requires forall i, j :: 0 <= i < j < |fs| ==> fs[i] != fs[j]
    ensures Distinct(Groups(xs, fs))
  {
    var g := Groups(xs, fs);
    forall i, j | 0 <= i < j < |g| ensures g[i].0 != g[j].0 {
      if g[i].0 == g[j].0 {
        KeyOfInjective(fs[i], fs[j]);
      }
    }
  }

  /** One more artifact: its entry goes at the end of its format's list, a new format goes last. */
  lemma AddToGroups(xs: seq<Artifact>, a: Artifact)
    requires |xs| < PhpIntMax
    ensures AddedToCategory(CategoryAfter(xs), a) == Success(CategoryAfter(xs + [a]))
  {
    var bs := xs + [a];
    assert bs[..|bs| - 1] == xs;
    assert FormatNames(bs) == FormatNames(xs) + [a.format];
    var d := FormatsOf(xs);
    DedupExactly(FormatNames(xs));
    assert xs == [] ==> d == [];
    assert AddedToCategory(CategoryAfter(xs), a) == AddedToCategory(Array(Groups(xs, d)), a);
    GroupsDistinct(xs, d);
    if a.format in d {
      assert FormatsOf(bs) == d;
      AddToKnownFormat(xs, a, d);
    } else {
      assert FormatsOf(bs) == d + [a.format];
      AddToNewFormat(xs, a, d);
    }
  }

  lemma AddToKnownFormat(xs: seq<Artifact>, a: Artifact, d: seq<string>)
    requires |xs| < PhpIntMax
    requires a.format in d && Distinct(Groups(xs, d))
    ensures AddedToCategory(Array(Groups(xs, d)), a) == Success(Array(Groups(xs + [a], d)))
  {
    var f := a.format;
    var g := Groups(xs, d);
    var j :| 0 <= j < |d| && d[j] == f;
    var ns := Stored(xs, f);
    StoredLength(xs, f);
    var v := Array(Numbered(ns + [Written(a)]));
    GroupsAfterKnown(xs, a, d, j);
    AppendedNumbered(ns, Written(a));
    GetAt(g, j);
    AddedAtList(g, a, Numbered(ns));
    PutInPlace(g, j, v);
  }

  /** Only the artifact's own format gains an entry. */
  lemma GroupsAfterKnown(xs: seq<Artifact>, a: Artifact, d: seq<string>, j: nat)
    requires j < |d| && d[j] == a.format && Distinct(Groups(xs, d))
    ensures Groups(xs + [a], d) == Groups(xs, d)[j := (KeyOf(a.format), Array(Numbered(Stored(xs, a.format) + [Written(a)])))]
  {
    var g := Groups(xs, d);
    forall i | 0 <= i < |d| ensures Stored(xs + [a], d[i]) == if i == j then Stored(xs, a.format) + [Written(a)] else Stored(xs, d[i]) {
      StoredSnoc(xs, a, d[i]);
      if i != j {
        assert g[i].0 != g[j].0;
      }
    }
  }

  /** Appending to a list numbered from 0 numbers the new entry next. */
  lemma AppendedNumbered(ns: seq<Node>, w: Node)
    requires |ns| < PhpIntMax
    ensures Appended(Numbered(ns), w) == Numbered(ns + [w])
  {
    NextIndexNumbered(ns);
    hide Appended, Numbered, NextIndex, Put;
    var l := Numbered(ns) + [(IntKey(|ns|), w)];
    var r := Numbered(ns + [w]);
    forall i | 0 <= i < |l| ensures l[i] == r[i] {
      if i < |ns| {
        assert l[i] == Numbered(ns)[i];
      }
    }
  }

  /** Adding to a format whose list is already there. */
  lemma AddedAtList(g: seq<(ArrayKey, Node)>, a: Artifact, l: seq<(ArrayKey, Node)>)
    requires Get(g, KeyOf(a.format)) == Some(Array(l))
    ensures AddedToCategory(Array(g), a) == Success(Array(Put(g, KeyOf(a.format), Array(Appended(l, Written(a))))))
  {
  }

  lemma AddToNewFormat(xs: seq<Artifact>, a: Artifact, d: seq<string>)
    requires a.format !in d && a.format !in FormatNames(xs)
    ensures AddedToCategory(Array(Groups(xs, d)), a) == Success(Array(Groups(xs + [a], d + [a.format])))
  {
    var f := a.format;
    var key := KeyOf(f);
    var g := Groups(xs, d);
    forall i | 0 <= i < |g| ensures g[i].0 != key {
      if g[i].0 == key {
        KeyOfInjective(d[i], f);
      }
    }
    AddedAtNew(g, a);
    GroupsAfterNew(xs, a, d);
  }

  /** A new format goes last, holding the one entry. */
  lemma GroupsAfterNew(xs: seq<Artifact>, a: Artifact, d: seq<string>)
    requires a.format !in d && a.format !in FormatNames(xs)
    ensures Groups(xs + [a], d + [a.format]) == Groups(xs, d) + [(KeyOf(a.format), Array(Numbered([Written(a)])))]
  {
    var l := Groups(xs + [a], d + [a.format]);
    var r := Groups(xs, d) + [(KeyOf(a.format), Array(Numbered([Written(a)])))];
    GroupNew(xs, a, d);
    hide *;
    forall i | 0 <= i < |l| ensures l[i] == r[i] {
      if i < |d| {
        GroupKept(xs, a, d, i);
        assert r[i] == Groups(xs, d)[i];
      }
    }
  }

  /** The group of an old format is as it was. */
  lemma GroupKept(xs: seq<Artifact>, a: Artifact, d: seq<string>, i: nat)
    requires i < |d| && a.format !in d
    ensures Groups(xs + [a], d + [a.format])[i] == Groups(xs, d)[i]
  {
    StoredSnoc(xs, a, d[i]);
    assert (d + [a.format])[i] == d[i];
  }

  /** The group of the new format holds the one entry. */
  lemma GroupNew(xs: seq<Artifact>, a: Artifact, d: seq<string>)
    requires a.format !in FormatNames(xs)
    ensures |Groups(xs + [a], d + [a.format])| == |d| + 1
    ensures Groups(xs + [a], d + [a.format])[|d|] == (KeyOf(a.format), Array(Numbered([Written(a)])))
  {
    StoredNothing(xs, a.format);
    StoredSnoc(xs, a, a.format);
    assert Stored(xs + [a], a.format) == [Written(a)];
    assert (d + [a.format])[|d|] == a.format;
  }

  lemma AddedAtNew(g: seq<(ArrayKey, Node)>, a: Artifact)
    requires forall i :: 0 <= i < |g| ==> g[i].0 != KeyOf(a.format)
    ensures AddedToCategory(Array(g), a) == Success(Array(g + [(KeyOf(a.format), Array(Numbered([Written(a)])))]))
  {
    assert KeyOf(a.format) !in Keys(g);
    assert Appended([], Written(a)) == Numbered([Written(a)]);
    hide Put, Get, Keys, NextIndex, Appended, Child, Numbered;
  }

  lemma StoredSnoc(xs: seq<Artifact>, a: Artifact, f: string)
    ensures Stored(xs + [a], f) == if a.format == f then Stored(xs, f) + [Written(a)] else Stored(xs, f)
  {
    assert (xs + [a])[..|xs|] == xs;
  }

  lemma StoredLength(xs: seq<Artifact>, f: string)
    ensures |Stored(xs, f)| <= |xs|
  {
  }

  /** A list built by `addArtifact` reads back as the artifacts added to that format. */
  lemma {:induction false} ReadFormat(xs: seq<Artifact>, c: string, f: string)
    requires SameCategory(xs, c)
    ensures Flatten(FromEntries(c, f, Numbered(Stored(xs, f)))) == Success(OfFormat(xs, f))
    decreases |xs|
  {
    if xs != [] {
      var init := xs[..|xs| - 1];
      var a := xs[|xs| - 1];
      ReadFormat(init, c, f);
      if a.format == f {
        var ns := Stored(init, f);
        assert Stored(xs, f) == ns + [Written(a)];
        assert OfFormat(xs, f) == OfFormat(init, f) + [Normalised(a)];
        var rs := FromEntries(c, f, Numbered(ns + [Written(a)]));
        assert rs[..|ns|] == FromEntries(c, f, Numbered(ns));
        assert rs[..|ns| + 1] == rs;
        ReadEntry(a, c, |ns|);
        hide *;
        FlattenStep(rs, |ns|);
      } else {
        assert Stored(xs, f) == Stored(init, f);
        assert OfFormat(xs, f) == OfFormat(init, f);
      }
    }
  }

  /** One entry `addArtifact` wrote, read back by `getArtifacts`. */
  lemma ReadEntry(a: Artifact, c: string, n: int)
    requires a.category == c
    ensures FromEntry(c, a.format, IntKey(n), Written(a)) == Success([Normalised(a)])
  {
    if !IsEmpty(a.variant) {
      KeyNameOfKey(a.kind);
      var ts := [(KeyOf(a.kind), Scalar(a.variant))];
      var rs := FromTypes(c, a.format, ts);
      assert rs == [Made(c, Scalar(a.kind), a.format, Scalar(a.variant))];
      assert rs[..0] == [];
      assert Flatten(rs) == Success([] + [Normalised(a)]);
      assert [] + [Normalised(a)] == [Normalised(a)];
      assert Written(a) == Array(ts);
      assert Numeric(IntKey(n));
      assert FromEntry(c, a.format, IntKey(n), Array(ts)) == Flatten(rs);
    } else {
      assert Written(a) == Scalar(a.kind);
      assert Numeric(IntKey(n));
      assert Normalised(a) == Artifact(c, a.kind, a.format, "");
    }
  }

  /** The whole category reads back format by format. */
  lemma {:induction false} ReadGroups(xs: seq<Artifact>, c: string, fs: seq<string>)
    requires SameCategory(xs, c)
    ensures Flatten(FromFormats(c, Groups(xs, fs))) == Success(Grouped(xs, fs))
    decreases |fs|
  {
    if fs != [] {
      var init := fs[..|fs| - 1];
      var f := fs[|fs| - 1];
      ReadGroups(xs, c, init);
      var rs := FromFormats(c, Groups(xs, fs));
      assert rs[..|init|] == FromFormats(c, Groups(xs, init));
      KeyNameOfKey(f);
      ReadFormat(xs, c, f);
    }
  }

  /**
   * Adding artifacts of one category to a configuration where that category is unset,
   * then reading the category back, gives the same artifacts, grouped by format in the
   * order the formats first appear, with empty variants dropped.
   */
  lemma {:induction false} AddThenRead(config: Node, c: string, xs: seq<Artifact>)
    requires !config.Scalar? && !Child(config, ArtifactsKey).Scalar? && CategoryNode(config, c) == Null
    requires SameCategory(xs, c) && |xs| < PhpIntMax
    ensures AddedAll(config, xs).Success?
    ensures ArtifactsOf(AddedAll(config, xs).value, c) == Success(Grouped(xs, FormatsOf(xs)))
  {
    Building(config, c, xs);
    if xs != [] {
      ReadGroups(xs, c, FormatsOf(xs));
    }
  }

  /** Each step of the run succeeds and the category holds what CategoryAfter says. */
  lemma {:induction false} Building(config: Node, c: string, xs: seq<Artifact>)
    requires !config.Scalar? && !Child(config, ArtifactsKey).Scalar? && CategoryNode(config, c) == Null
    requires SameCategory(xs, c) && |xs| < PhpIntMax
    ensures AddedAll(config, xs).Success?
    ensures var r := AddedAll(config, xs).value;
      !r.Scalar? && !Child(r, ArtifactsKey).Scalar? && CategoryNode(r, c) == CategoryAfter(xs)
    decreases |xs|
  {
    if xs != [] {
      var init := xs[..|xs| - 1];
      var a := xs[|xs| - 1];
      assert init + [a] == xs;
      assert SameCategory(init, c) && a.category == c;
      Building(config, c, init);
      var prev := AddedAll(config, init).value;
      assert AddedAll(config, xs) == AddedArtifact(prev, a);
      hide *;
      BuildingStep(prev, c, init, a);
    }
  }

  /** One more artifact of the category: the write succeeds and the category grows. */
  lemma BuildingStep(prev: Node, c: string, init: seq<Artifact>, a: Artifact)
    requires !prev.Scalar? && !Child(prev, ArtifactsKey).Scalar? && CategoryNode(prev, c) == CategoryAfter(init)
    requires a.category == c && |init| < PhpIntMax
    ensures AddedArtifact(prev, a).Success?
    ensures var r := AddedArtifact(prev, a).value;
      !r.Scalar? && !Child(r, ArtifactsKey).Scalar? && CategoryNode(r, c) == CategoryAfter(init + [a])
  {
    AddToGroups(init, a);
    hide AddedToCategory, CategoryAfter, CategoryNode;
  }
}
