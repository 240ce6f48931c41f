/**
 * What the Twig extensions (src/Twig/) are given. A template may pass any PHP value to a
 * filter or a test, and the extensions only read the model, so each object appears here
 * as a value view of the properties the filters read while a template is rendered.
 */
module TwigValues {
  import opened Wrappers
  import opened PhpStrings
  import opened PhpValues
  import opened FieldHelper
  import opened OrderedMap
  import DataModel

  /** The side a relation points at: its owner's name and identifier, and its field's name. */
  datatype RemoteView = RemoteView(ownerName: string, identifier: Option<FieldAttrs>, fieldName: Option<string>)

  /**
   * A RelationshipSide: its LEFT/RIGHT stamp, the type of its relationship (None while no
   * relationship is set, when `getRelationship()` is a TypeError), the name of the object
   * it belongs to, its field, `getRemoteSide()` (None when there is no remote side), and
   * the names of the objects the relationship's left and right sides belong to.
   */
  datatype SideView = SideView(side: Option<string>, relType: Option<string>, ownerName: string,
                               field: Option<FieldAttrs>, remote: Option<RemoteView>, ends: (string, string))

  /** A Field with the relation it is linked to. */
  datatype FieldView = FieldView(attrs: FieldAttrs, relation: Option<SideView>)

  /**
   * A Data: the name DataNameHelper gives it through `setName`, read back by `getName`,
   * members the class does not declare (None while none is given); its field, the name of
   * its business model, its details, and the mandatory flag of an EventData (None for a
   * plain Data).
   */
  datatype DataView = DataView(name: Option<string>, field: FieldView, modelName: string, details: string,
                               eventMandatory: Option<bool>)

  /** A BusinessModel, or an Entity of the older model: its name and its fields in order. */
  datatype ModelView = ModelView(name: string, fields: seq<FieldView>)

  /** A unique Constraint or a database Index: its name, its fields and its description. */
  datatype IndexView = IndexView(name: string, fields: seq<FieldView>, description: string)

  /** A DataSet: its name, its fields and the identifier field its missing `getIdentifier()` gives. */
  datatype DatasetView = DatasetView(name: string, fields: seq<FieldAttrs>, identifier: Option<FieldAttrs>)

  /** A DatasetElement: its values by name and its data set, if one is assigned. */
  datatype ElementView = ElementView(values: seq<(ArrayKey, Value)>, dataset: Option<DatasetView>)

  /** The classes whose objects LanguageTwigExtension::getName reads a name from, besides the above. */
  datatype NamedKind = ProcessKind | EventKind | StateKind | StateMachineKind | TransitionKind | ConstraintKind

  /** A value a template hands to an extension. */
  datatype Mixed =
    | Scalar(v: Value)                        // null, bool, int, float, string, DateTime
    | Items(items: seq<Mixed>)                // a PHP array, walked in order
    | FieldObj(field: FieldView)
    | DataObj(data: DataView)
    | ModelObj(model: ModelView)              // a BusinessModel
    | EntityObj(entity: ModelView, constraints: seq<IndexView>)   // an Entity of the older model
    | BundleObj(namespace: string, name: string)                 // a BusinessBundle
    | SideObj(side: SideView)
    | DataBundleObj(bundleName: string, structure: DataModel.Structure)
    | DatasetObj(dataset: DatasetView)
    | ElementObj(element: ElementView)
    | IndexObj(index: IndexView)
    | NamedObj(kind: NamedKind, objName: string)
    | OtherObj(className: string)             // an object of any other class

  function Str(s: string): Mixed { Scalar(VString(s)) }

  /**
   * The BusinessBundle a template context holds: its namespace, the names of its models and
   * its data sets, each keyed as the bundle keys it.
   */
  datatype Catalog = Catalog(namespace: string, models: seq<(string, string)>, datasets: seq<(string, DatasetView)>)

  /**
   * The template context the extensions read: `package` and `bundle` (None when unset) and
   * `subpackage` (VNull when unset).
   */
  datatype Context = Context(package: Option<Catalog>, bundle: Option<Catalog>, subpackage: Value)

  /** `isBusinessModel($field, $bundle)`. */
  predicate InModels(f: FieldAttrs, c: Catalog) { IsBusinessModel(f, Keys(c.models)) }

  /** `isDataset($field, $bundle)`. */
  predicate InDatasets(f: FieldAttrs, c: Catalog) { IsDataset(f, Keys(c.datasets)) }

  /**
   * The field a type filter works on and whether it is mandatory in context: a Data gives
   * its field, and an EventData its own flag when the caller did not ask for mandatory.
   */
  function Subject(obj: Mixed, mandatory: bool): (r: (Option<FieldView>, bool))
    ensures r.0.Some? <==> obj.FieldObj? || obj.DataObj?
    ensures mandatory ==> r.1
    ensures !obj.DataObj? ==> r.1 == mandatory
  {
    match obj
    case FieldObj(f) => (Some(f), mandatory)
    case DataObj(d) =>
      (Some(d.field), if d.eventMandatory.Some? && !mandatory then d.eventMandatory.value else mandatory)
    case _ => (None, mandatory)
  }

  /** The fully qualified class of an object, as PHP names it in messages. */
  function ClassName(obj: Mixed): string
  {
    match obj
    case Scalar(_) => ""
    case Items(_) => "array"
    case FieldObj(_) => "CodePrimer\\Model\\Field"
    case DataObj(d) => if d.eventMandatory.Some? then "CodePrimer\\Model\\Data\\EventData" else "CodePrimer\\Model\\Data\\Data"
    case ModelObj(_) => "CodePrimer\\Model\\BusinessModel"
    case EntityObj(_, _) => "CodePrimer\\Model\\Entity"
    case BundleObj(_, _) => "CodePrimer\\Model\\BusinessBundle"
    case SideObj(_) => "CodePrimer\\Model\\RelationshipSide"
    case DataBundleObj(_, _) => "CodePrimer\\Model\\Data\\DataBundle"
    case DatasetObj(_) => "CodePrimer\\Model\\DataSet"
    case ElementObj(_) => "CodePrimer\\Model\\DatasetElement"
    case IndexObj(_) => "CodePrimer\\Model\\Database\\Index"
    case NamedObj(k, _) => "CodePrimer\\Model\\" + (match k
                            case ProcessKind => "BusinessProcess"
                            case EventKind => "Derived\\Event"
                            case StateKind => "State"
                            case StateMachineKind => "StateMachine"
                            case TransitionKind => "Transition"
                            case ConstraintKind => "Constraint")
    case OtherObj(c) => c
  }

  /** The non-null relations of fields, in field order (`getRelations()`). */
  function Relations(fs: seq<FieldView>): (r: seq<SideView>)
    ensures |r| <= |fs|
    ensures forall s :: s in r <==> exists i :: 0 <= i < |fs| && fs[i].relation == Some(s)
  {
    if fs == [] then []
    else
      var init := Relations(fs[..|fs| - 1]);
      assert forall i :: 0 <= i < |fs| - 1 ==> fs[..|fs| - 1][i] == fs[i];
      match fs[|fs| - 1].relation
      case None => init
      case Some(s) => init + [s]
  }

  /**
   * `get_class($obj)` as PHP 7.2 and later give it: the class of an object, and for
   * anything else a warning and false, which a message reads as ''.
   */
  function GetClass(obj: Mixed): string
  {
    match obj
    case Scalar(v) => if v.VDateTime? then "DateTime" else ""
    case Items(_) => ""
    case _ => ClassName(obj)
  }

  /**
   * The TypeError of a parameter declared with a class type that gets something else (the
   * trailing ", ... given" of PHP's message is not modelled).
   */
  function TypeMismatch(member: string, position: string, expected: string): Error
  {
    Error(Fatal, "Argument " + position + " passed to " + member + "() must be an instance of " + expected)
  }

  /**
   * The error PHP raises when a method is called on a value: a scalar, null or an array has
   * no methods, and an object of a class that does not declare the method has not that one.
   */
  function CallError(obj: Mixed, member: string): (r: Error)
    ensures r.kind == Fatal
  {
    match obj
    case Scalar(v) =>
      if v.VDateTime? then Error(Fatal, "Call to undefined method DateTime::" + member + "()")
      else Error(Fatal, "Call to a member function " + member + "() on " +
                        (match v
                         case VNull => "null"
                         case VBool(_) => "bool"
                         case VInt(_) => "int"
                         case VFloat(_, _) => "float"
                         case _ => "string"))
    case Items(_) => Error(Fatal, "Call to a member function " + member + "() on array")
    case _ => Error(Fatal, "Call to undefined method " + ClassName(obj) + "::" + member + "()")
  }
}
