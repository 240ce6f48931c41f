/**
 * DataNameHelper (src/Helper/DataNameHelper.php): gives each Data of an event a name no
 * other Data of that event holds, trying the field's name, then the model and field names
 * camelized together, then the bundle, model and field names camelized together.
 */
module DataNames {
  import opened Wrappers
  import opened Inflection
  import opened DataModel

  /** The names assignDataName tries, in the order it tries them. */
  function Candidates(camelize: string -> string, bundleName: string, modelName: string, name: string): (r: seq<string>)
    ensures |r| == 3 && r[0] == name
  {
    [name, camelize(modelName + "_" + name), camelize(bundleName + "_" + modelName + "_" + name)]
  }

  /** Pieces of the RuntimeException message. */
  const UNIQUE_NAME_PREFIX := "Failed to assign a unique name to data for Bundle: "
  const MODEL_PART := ", Model: "
  const FIELD_PART := ", Field: "
  const UNIQUE_NAME_ADVICE := ". Please consider changing the bundle name"

  function UniqueNameMessage(bundleName: string, modelName: string, name: string): string
  {
    UNIQUE_NAME_PREFIX + bundleName + MODEL_PART + modelName + FIELD_PART + name + UNIQUE_NAME_ADVICE
  }

  /** The name picked and the reserved names it had to pass over. */
  datatype Choice = Choice(name: string, conflicts: seq<string>)

  /**
   * The decision of assignDataName when the names in `taken` are already reserved: a name
   * nobody holds, one of the three candidates, with the taken candidates reported as
   * conflicts; a RuntimeException when all three are taken.
   */
  function Pick(taken: set<string>, camelize: string -> string, bundleName: string, modelName: string, name: string)
    : (r: Result<Choice>)
    ensures r.Success? ==> r.value.name !in taken && r.value.name in Candidates(camelize, bundleName, modelName, name)
    ensures r.Success? ==> forall c :: c in r.value.conflicts ==> c in taken
    ensures name !in taken ==> r == Success(Choice(name, []))
    ensures r.Success? && name in taken ==> r.value.conflicts != [] && r.value.conflicts[0] == name
    ensures r.Failure? <==> forall c :: c in Candidates(camelize, bundleName, modelName, name) ==> c in taken
    ensures r.Failure? ==> r.error == Error(Runtime, UniqueNameMessage(bundleName, modelName, name))
  {
    if name !in taken then Success(Choice(name, []))
    else
      var second := camelize(modelName + "_" + name);
      if second !in taken then Success(Choice(second, [name]))
      else
        var third := camelize(bundleName + "_" + modelName + "_" + name);
        if third in taken then Failure(Error(Runtime, UniqueNameMessage(bundleName, modelName, name)))
        else Success(Choice(third, [name, second]))
  }

  /** Candidate k is the first one not taken. */
  predicate FirstFreeAt(cs: seq<string>, taken: set<string>, k: nat)
  {
    k < |cs| && cs[k] !in taken && forall j :: 0 <= j < k ==> cs[j] in taken
  }

  /** The name picked is the first candidate not taken, and the conflicts are the candidates before it. */
  lemma PickIsFirstFree(taken: set<string>, camelize: string -> string, bundleName: string, modelName: string, name: string)
    requires Pick(taken, camelize, bundleName, modelName, name).Success?
    ensures var cs := Candidates(camelize, bundleName, modelName, name);
            var c := Pick(taken, camelize, bundleName, modelName, name).value;
            exists k: nat :: FirstFreeAt(cs, taken, k) && c.name == cs[k] && c.conflicts == cs[..k]
  {
    var cs := Candidates(camelize, bundleName, modelName, name);
    var c := Pick(taken, camelize, bundleName, modelName, name).value;
    if name !in taken {
      assert FirstFreeAt(cs, taken, 0) && c.conflicts == cs[..0];
    } else if cs[1] !in taken {
      assert FirstFreeAt(cs, taken, 1) && c.conflicts == cs[..1];
    } else {
      assert FirstFreeAt(cs, taken, 2) && c.conflicts == cs[..2];
    }
  }

  class DataNameHelper {
    const inflector: Inflector
    /** Each name reserved so far, with the data holding it. */
    var names: map<string, Data>
    /** The bundle each reserved name was reserved for. */
    var bundleNames: map<string, string>

    constructor (inflector: Inflector)
      ensures this.inflector == inflector && names == map[] && bundleNames == map[]
    {
      this.inflector := inflector;
      names := map[];
      bundleNames := map[];
    }

    /** `$this->names[$name]`: the holder, or null for a name never reserved. */
    function GetData(name: string): (r: Data?)
      reads this`names
      ensures r != null <==> name in names
      ensures r != null ==> r == names[name]
    {
      if name in names then names[name] else null
    }

    /** `$this->bundleNames[$name]`: the bundle, or null for a name never reserved. */
    function GetBundleName(name: string): (r: Option<string>)
      reads this`bundleNames
      ensures r.Some? <==> name in bundleNames
      ensures r.Some? ==> r.value == bundleNames[name]
    {
      if name in bundleNames then Some(bundleNames[name]) else None
    }

    /**
     * assignDataName: reserve a name for the data and return the conflicts met on the way.
     * A reservation is never removed or overwritten; when all three names are taken
     * nothing changes and a RuntimeException is thrown. The data's name is the abstract
     * `name` state that `setName` writes.
     */
    method AssignDataName(bundleName: string, data: Data) returns (r: Result<seq<string>>)
      modifies this`names, this`bundleNames, data`name
      ensures Pick(old(names).Keys, inflector.camelize, bundleName, data.businessModel.name, data.field.name).Failure? ==>
                r == Failure(Pick(old(names).Keys, inflector.camelize, bundleName, data.businessModel.name, data.field.name).error)
                && names == old(names) && bundleNames == old(bundleNames) && data.name == old(data.name)
      ensures Pick(old(names).Keys, inflector.camelize, bundleName, data.businessModel.name, data.field.name).Success? ==>
                var c := Pick(old(names).Keys, inflector.camelize, bundleName, data.businessModel.name, data.field.name).value;
                r == Success(c.conflicts) && data.name == Some(c.name)
                && names == old(names)[c.name := data] && bundleNames == old(bundleNames)[c.name := bundleName]
    {
      var modelName := data.businessModel.name;
      var name := data.field.name;
      var conflicts := [];
      if name !in names {
        data.name := Some(name);
        names := names[name := data];
        bundleNames := bundleNames[name := bundleName];
      } else {
        conflicts := [name];
        var newName := inflector.camelize(modelName + "_" + name);
        if newName in names {
          conflicts := [name, newName];
          newName := inflector.camelize(bundleName + "_" + modelName + "_" + name);
          if newName in names {
            return Failure(Error(Runtime, UniqueNameMessage(bundleName, modelName, name)));
          }
        }
        data.name := Some(newName);
        names := names[newName := data];
        bundleNames := bundleNames[newName := bundleName];
      }
      r := Success(conflicts);
    }
  }
}
