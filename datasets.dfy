/**
 * Pre-defined data sets: a DataSet declares native fields and accepts rows
 * (DataSetElement) whose values match those fields exactly; DatasetElement is the
 * older row class that also knows its data set.
 */
module Datasets {
  import opened Wrappers
  import opened PhpValues
  import opened OrderedMap
  import opened FieldHelper
  import opened Model

  // ---- element values ----

  /** `count(array_filter(array_keys($values), 'is_string')) === count($values)`. */
  predicate AllStringKeys(values: seq<(ArrayKey, Value)>)
  {
    forall i :: 0 <= i < |values| ==> values[i].0.StrKey?
  }

  const NotAssociative := "Invalid array type passed. Must be an associative array of type 'name' (string) => 'value' (mixed)"

  /** The guard of both setValues: an empty array, or one whose keys are all strings. */
  function CheckValues(values: seq<(ArrayKey, Value)>): (r: Outcome)
    ensures r.Done? <==> AllStringKeys(values)
    ensures r.Fail? ==> r.error == Error(InvalidArgument, NotAssociative)
  {
    if values == [] || AllStringKeys(values) then Done else Fail(Error(InvalidArgument, NotAssociative))
  }

  /** `isset($values[$name]) ? $values[$name] : null`; a stored null reads as absent. */
  function Lookup(values: seq<(ArrayKey, Value)>, name: string): (r: Value)
    ensures r != VNull ==> (KeyOf(name), r) in values
    ensures !HasKey(values, KeyOf(name)) ==> r == VNull
  {
    match Get(values, KeyOf(name))
    case None => VNull
    case Some(v) => v
  }

  const NullableStringGotDateTime := "Return value must be of type ?string, DateTime returned"
  const StringGotDateTime := "Return value must be of type string, DateTime returned"

  /**
   * What a function declared `: ?string` hands back for a value (the files use PHP's
   * coercive typing mode): null stays null, scalars become their string form and an
   * object is a TypeError.
   */
  function ReturnNullableString(v: Value): (r: Result<Option<string>>)
    ensures v == VNull ==> r == Success(None)
    ensures r.Failure? <==> v.VDateTime?
    ensures v.VString? ==> r == Success(Some(v.s))
    ensures r.Success? && r.value.Some? ==> StringOf(v) == Success(r.value.value)
  {
    match v
    case VNull => Success(None)
    case VDateTime(_) => Failure(Error(Fatal, NullableStringGotDateTime))
    case _ => Success(Some(StringOf(v).value))
  }

  /** The same for a function declared `: string`, where null is a TypeError too. */
  function ReturnString(v: Value): (r: Result<string>)
    ensures r.Failure? <==> v.VNull? || v.VDateTime?
    ensures v.VString? ==> r == Success(v.s)
    ensures r.Success? ==> StringOf(v) == Success(r.value)
  {
    match v
    case VNull => Failure(Error(Fatal, StringGotNull))
    case VDateTime(_) => Failure(Error(Fatal, StringGotDateTime))
    case _ => Success(StringOf(v).value)
  }

  /** A row of a DataSet: values keyed by field name. */
  class DataSetElement {
    var values: seq<(ArrayKey, Value)>

    constructor Empty()
      ensures values == []
    {
      values := [];
    }

    /** `new DataSetElement($values)`: the constructor throws when setValues does. */
    static method New(values: seq<(ArrayKey, Value)>) returns (r: Result<DataSetElement>)
      ensures r.Success? <==> AllStringKeys(values)
      ensures r.Failure? ==> r.error == Error(InvalidArgument, NotAssociative)
      ensures r.Success? ==> fresh(r.value) && r.value.values == values
    {
      var e := new DataSetElement.Empty();
      var o := e.SetValues(values);
      if o.Fail? {
        return Failure(o.error);
      }
      r := Success(e);
    }

    method SetValues(values: seq<(ArrayKey, Value)>) returns (r: Outcome)
      modifies this
      ensures r.Done? <==> AllStringKeys(values)
      ensures r.Fail? ==> r.error == Error(InvalidArgument, NotAssociative) && this.values == old(this.values)
      ensures r.Done? ==> this.values == values
    {
      r := CheckValues(values);
      if r.Done? {
        this.values := values;
      }
    }

    /** `$this->values[$name] = $value`: a name spelling an int is stored under that int. */
    method AddValue(name: string, value: Value) returns (r: DataSetElement)
      modifies this
      ensures r == this && values == Put(old(values), KeyOf(name), value)
    {
      values := Put(values, KeyOf(name), value);
      r := this;
    }

    function GetValue(name: string): (r: Result<Option<string>>)
      reads this
      ensures !HasKey(values, KeyOf(name)) ==> r == Success(None)
      ensures r.Failure? <==> Get(values, KeyOf(name)).Some? && Get(values, KeyOf(name)).value.VDateTime?
      ensures r.Success? && r.value.Some? ==>
        exists v :: (KeyOf(name), v) in values && StringOf(v) == Success(r.value.value)
    {
      ReturnNullableString(Lookup(values, name))
    }
  }

  // ---- DataSet.addElement, as a specification ----

  /** `isValueCompatible(field, value)`, as a parameter of the specification. */
  type Compatibility = (FieldAttrs, Value) -> bool

  /** FieldHelper's check with the given foreign checks. */
  function Compat(foreign: ForeignChecks): Compatibility
  {
    (f: FieldAttrs, v: Value) => IsValueCompatible(f, v, foreign)
  }

  /** A value that does not fit the field it names. */
  datatype Misfit = Misfit(key: ArrayKey, value: Value, field: FieldAttrs)

  /** What the loop of addElement has gathered after some of the element's values. */
  datatype Scan = Scan(missing: seq<(ArrayKey, FieldAttrs)>, invalid: seq<Misfit>, unknown: seq<ArrayKey>)

  /** One turn of the loop: a value claims its field (and may not fit it) or is unknown. */
  function ScanValue(s: Scan, key: ArrayKey, value: Value, fits: Compatibility): Scan
  {
    match Get(s.missing, key)
    case None => s.(unknown := s.unknown + [key])
    case Some(f) =>
      Scan(Remove(s.missing, key), s.invalid + (if fits(f, value) then [] else [Misfit(key, value, f)]), s.unknown)
  }

  /** The loop over all values, starting with every field missing. */
  function ScanValues(fields: seq<(ArrayKey, FieldAttrs)>, values: seq<(ArrayKey, Value)>, fits: Compatibility): Scan
  {
    if values == [] then Scan(fields, [], [])
    else ScanValue(ScanValues(fields, values[..|values| - 1], fits), values[|values| - 1].0, values[|values| - 1].1, fits)
  }

  const IsNotAValid := " is not a valid "

  /** `"$name ($value is not a valid {type})"`; interpolating a DateTime is fatal. */
  function Complaint(m: Misfit): (r: Result<string>)
    ensures r.Failure? <==> m.value.VDateTime?
    ensures r.Failure? ==> r.error == Error(Fatal, DateTimeToString)
  {
    var text :- StringOf(m.value);
    Success(KeyName(m.key) + " (" + text + IsNotAValid + m.field.fieldType + ")")
  }

  /** The complaints in loop order; the first DateTime among the misfits ends the loop. */
  function Complaints(ms: seq<Misfit>): (r: Result<seq<string>>)
    ensures r.Failure? <==> exists i :: 0 <= i < |ms| && ms[i].value.VDateTime?
    ensures r.Failure? ==> r.error == Error(Fatal, DateTimeToString)
    ensures r.Success? ==> |r.value| == |ms|
  {
    if ms == [] then Success([])
    else
      var cs :- Complaints(ms[..|ms| - 1]);
      var c :- Complaint(ms[|ms| - 1]);
      Success(cs + [c])
  }

  function Names(ks: seq<ArrayKey>): (r: seq<string>)
    ensures |r| == |ks| && forall i :: 0 <= i < |ks| ==> r[i] == KeyName(ks[i])
  {
    if ks == [] then [] else [KeyName(ks[0])] + Names(ks[1..])
  }

  const InvalidElement := "Invalid element for DataSet "
  const MissingFields := "Missing Fields: "
  const UnknownFields := "Unknown Fields: "
  const NotCompatible := "The following values are not compatible with their associated field: "

  function Rejection(setName: string, detail: string): Outcome
  {
    Fail(Error(InvalidArgument, InvalidElement + setName + ". " + detail))
  }

  /** The missing-fields message, with the unknown ones appended when there are any. */
  function MissingDetail(missing: seq<ArrayKey>, unknown: seq<ArrayKey>): string
  {
    MissingFields + PhpStrings.Join(Names(missing), ",")
      + (if unknown != [] then ". " + UnknownFields + PhpStrings.Join(Names(unknown), ",") else "")
  }

  /** After the loop: missing fields first, then unknown ones, then invalid values. */
  function Verdict(setName: string, missing: seq<(ArrayKey, FieldAttrs)>, unknown: seq<ArrayKey>,
                   complaints: seq<string>): Outcome
  {
    if missing != [] then Rejection(setName, MissingDetail(Keys(missing), unknown))
    else if unknown != [] then Rejection(setName, UnknownFields + PhpStrings.Join(Names(unknown), ","))
    else if complaints != [] then Rejection(setName, NotCompatible + PhpStrings.Join(complaints, ","))
    else Done
  }

  /** Whether addElement accepts a row with these values for a data set with these fields. */
  function ElementOutcome(setName: string, fields: seq<(ArrayKey, FieldAttrs)>, values: seq<(ArrayKey, Value)>,
                          fits: Compatibility): Outcome
  {
    var s := ScanValues(fields, values, fits);
    match Complaints(s.invalid)
    case Failure(e) => Fail(e)
    case Success(cs) => Verdict(setName, s.missing, s.unknown, cs)
  }

  /** Whether the value under `key` names a field of `fields` and does not fit it. */
  predicate Incompatible(fields: seq<(ArrayKey, FieldAttrs)>, key: ArrayKey, value: Value, fits: Compatibility)
  {
    Get(fields, key).Some? && !fits(Get(fields, key).value, value)
  }

  /** Reference definition: the values that do not fit the field of their name, in value order. */
  function Misfits(fields: seq<(ArrayKey, FieldAttrs)>, values: seq<(ArrayKey, Value)>, fits: Compatibility): seq<Misfit>
  {
    if values == [] then []
    else
      var (k, v) := values[|values| - 1];
      Misfits(fields, values[..|values| - 1], fits)
        + (if Incompatible(fields, k, v, fits) then [Misfit(k, v, Get(fields, k).value)] else [])
  }

  /** The misfits are exactly the incompatible values. */
  lemma {:induction false} MisfitsExactly(fields: seq<(ArrayKey, FieldAttrs)>, values: seq<(ArrayKey, Value)>,
                                          fits: Compatibility)
    ensures forall m :: m in Misfits(fields, values, fits) <==>
      ((m.key, m.value) in values && Incompatible(fields, m.key, m.value, fits) && m.field == Get(fields, m.key).value)
    decreases |values|
  {
    if values != [] {
      var init := values[..|values| - 1];
      var last := values[|values| - 1];
      assert values == init + [last];
      MisfitsExactly(fields, init, fits);
      forall m
        ensures m in Misfits(fields, values, fits) <==>
          ((m.key, m.value) in values && Incompatible(fields, m.key, m.value, fits) && m.field == Get(fields, m.key).value)
      {
        assert (m.key, m.value) in values <==> (m.key, m.value) in init || (m.key, m.value) == last;
      }
    }
  }

  /** Once a value has reached the scan, later values only append to its misfits. */
  lemma {:induction false} InvalidGrows(fields: seq<(ArrayKey, FieldAttrs)>, values: seq<(ArrayKey, Value)>, n: nat,
                                        fits: Compatibility)
    requires n <= |values|
    ensures ScanValues(fields, values[..n], fits).invalid <= ScanValues(fields, values, fits).invalid
    decreases |values|
  {
    if n < |values| {
      var init := values[..|values| - 1];
      assert init[..n] == values[..n];
      InvalidGrows(fields, init, n, fits);
    } else {
      assert values[..n] == values;
    }
  }

  /**
   * The missing fields left by the loop are the declared ones without a value, in
   * declaration order, each still with its own attributes.
   */
  lemma {:induction false} ScanMissing(fields: seq<(ArrayKey, FieldAttrs)>, values: seq<(ArrayKey, Value)>,
                                       fits: Compatibility)
    ensures Keys(ScanValues(fields, values, fits).missing) == Without(Keys(fields), Keys(values))
    ensures forall k :: k !in Keys(values) ==> Get(ScanValues(fields, values, fits).missing, k) == Get(fields, k)
    decreases |values|
  {
    if values == [] {
      WithoutNothing(Keys(fields));
    } else {
      var init := values[..|values| - 1];
      var (k, v) := values[|values| - 1];
      assert Keys(values) == Keys(init) + [k];
      ScanMissing(fields, init, fits);
      var s := ScanValues(fields, init, fits);
      WithoutAgain(Keys(fields), Keys(init), k);
      if Get(s.missing, k).None? {
        WithoutAbsent(Keys(s.missing), k);
      } else {
        RemoveKeys(s.missing, k);
      }
    }
  }

  /** With distinct value keys, the unknown keys are those without a field, in value order. */
  lemma {:induction false} ScanUnknown(fields: seq<(ArrayKey, FieldAttrs)>, values: seq<(ArrayKey, Value)>,
                                       fits: Compatibility)
    requires Distinct(values)
    ensures ScanValues(fields, values, fits).unknown == Without(Keys(values), Keys(fields))
    decreases |values|
  {
    if values != [] {
      var init := values[..|values| - 1];
      var (k, v) := values[|values| - 1];
      assert Keys(values) == Keys(init) + [k];
      assert Distinct(init) && k !in Keys(init);
      ScanUnknown(fields, init, fits);
      ScanMissing(fields, init, fits);
      WithoutSnoc(Keys(init), k, Keys(fields));
      assert Get(ScanValues(fields, init, fits).missing, k) == Get(fields, k);
    }
  }

  /** With distinct value keys, the scan's misfits are the reference ones. */
  lemma {:induction false} ScanInvalid(fields: seq<(ArrayKey, FieldAttrs)>, values: seq<(ArrayKey, Value)>,
                                       fits: Compatibility)
    requires Distinct(values)
    ensures ScanValues(fields, values, fits).invalid == Misfits(fields, values, fits)
    decreases |values|
  {
    if values != [] {
      var init := values[..|values| - 1];
      var (k, v) := values[|values| - 1];
      assert Keys(values) == Keys(init) + [k];
      assert Distinct(init) && k !in Keys(init);
      ScanInvalid(fields, init, fits);
      ScanMissing(fields, init, fits);
      assert Get(ScanValues(fields, init, fits).missing, k) == Get(fields, k);
    }
  }

  /** Each misfit comes from an incompatible value. */
  lemma MisfitAt(fields: seq<(ArrayKey, FieldAttrs)>, values: seq<(ArrayKey, Value)>, fits: Compatibility, i: nat)
    requires i < |Misfits(fields, values, fits)|
    ensures var m := Misfits(fields, values, fits)[i];
      exists j :: 0 <= j < |values| && values[j] == (m.key, m.value) && Incompatible(fields, m.key, m.value, fits)
  {
    MisfitsExactly(fields, values, fits);
    assert Misfits(fields, values, fits)[i] in Misfits(fields, values, fits);
  }

  predicate MisfitIs(ms: seq<Misfit>, j: int, m: Misfit)
  {
    0 <= j < |ms| && ms[j] == m
  }

  /** Each incompatible value gives a misfit. */
  lemma ValueMisfits(fields: seq<(ArrayKey, FieldAttrs)>, values: seq<(ArrayKey, Value)>, fits: Compatibility, i: nat)
    requires i < |values| && Incompatible(fields, values[i].0, values[i].1, fits)
    ensures exists j :: MisfitIs(Misfits(fields, values, fits), j, Misfit(values[i].0, values[i].1, Get(fields, values[i].0).value))
  {
    var ms := Misfits(fields, values, fits);
    var m := Misfit(values[i].0, values[i].1, Get(fields, values[i].0).value);
    MisfitsExactly(fields, values, fits);
    assert values[i] in values;
    assert m in ms;
    var j :| 0 <= j < |ms| && ms[j] == m;
    assert MisfitIs(ms, j, m);
  }

  /** Some misfit is a DateTime iff some incompatible value is one. */
  lemma DateTimeMisfit(fields: seq<(ArrayKey, FieldAttrs)>, values: seq<(ArrayKey, Value)>, fits: Compatibility)
    ensures (exists i :: 0 <= i < |Misfits(fields, values, fits)| && Misfits(fields, values, fits)[i].value.VDateTime?)
      <==> exists i :: 0 <= i < |values| && Incompatible(fields, values[i].0, values[i].1, fits) && values[i].1.VDateTime?
  {
    var ms := Misfits(fields, values, fits);
    if i :| 0 <= i < |ms| && ms[i].value.VDateTime? {
      MisfitAt(fields, values, fits, i);
      var j :| 0 <= j < |values| && values[j] == (ms[i].key, ms[i].value) && Incompatible(fields, ms[i].key, ms[i].value, fits);
      assert Incompatible(fields, values[j].0, values[j].1, fits) && values[j].1.VDateTime?;
    }
    if i :| 0 <= i < |values| && Incompatible(fields, values[i].0, values[i].1, fits) && values[i].1.VDateTime? {
      ValueMisfits(fields, values, fits, i);
      var j :| MisfitIs(ms, j, Misfit(values[i].0, values[i].1, Get(fields, values[i].0).value));
      assert ms[j].value.VDateTime?;
    }
  }

  /** No misfit at all iff every value fits the field of its name. */
  lemma NoMisfit(fields: seq<(ArrayKey, FieldAttrs)>, values: seq<(ArrayKey, Value)>, fits: Compatibility)
    ensures Misfits(fields, values, fits) == [] <==>
      forall i :: 0 <= i < |values| ==> !Incompatible(fields, values[i].0, values[i].1, fits)
  {
    var ms := Misfits(fields, values, fits);
    MisfitsExactly(fields, values, fits);
    if ms != [] {
      assert ms[0] in ms;
    }
    if exists i :: 0 <= i < |values| && Incompatible(fields, values[i].0, values[i].1, fits) {
      var i :| 0 <= i < |values| && Incompatible(fields, values[i].0, values[i].1, fits);
      assert values[i] in values;
      assert Misfit(values[i].0, values[i].1, Get(fields, values[i].0).value) in ms;
    }
  }

  /** With distinct value keys, addElement throws a TypeError iff an incompatible value is a DateTime. */
  lemma FailsOnDateTime(setName: string, fields: seq<(ArrayKey, FieldAttrs)>, values: seq<(ArrayKey, Value)>,
                        fits: Compatibility)
    requires Distinct(values)
    ensures ElementOutcome(setName, fields, values, fits) == Fail(Error(Fatal, DateTimeToString)) <==>
      exists i :: 0 <= i < |values| && Incompatible(fields, values[i].0, values[i].1, fits) && values[i].1.VDateTime?
  {
    ScanInvalid(fields, values, fits);
    DateTimeMisfit(fields, values, fits);
  }

  /** No declared field without a value, and no value without a declared field. */
  predicate KeysMatch(fields: seq<(ArrayKey, FieldAttrs)>, values: seq<(ArrayKey, Value)>)
  {
    (forall k :: k in Keys(fields) ==> k in Keys(values)) && (forall k :: k in Keys(values) ==> k in Keys(fields))
  }

  /** Nothing is missing iff every declared field has a value. */
  lemma NoneMissing(fields: seq<(ArrayKey, FieldAttrs)>, values: seq<(ArrayKey, Value)>, fits: Compatibility)
    ensures ScanValues(fields, values, fits).missing == [] <==> forall k :: k in Keys(fields) ==> k in Keys(values)
  {
    var s := ScanValues(fields, values, fits);
    ScanMissing(fields, values, fits);
    var left := Keys(s.missing);
    if s.missing != [] {
      assert left[0] in Without(Keys(fields), Keys(values));
    }
  }

  /** With distinct value keys, nothing is unknown iff every value has a declared field. */
  lemma NoneUnknown(fields: seq<(ArrayKey, FieldAttrs)>, values: seq<(ArrayKey, Value)>, fits: Compatibility)
    requires Distinct(values)
    ensures ScanValues(fields, values, fits).unknown == [] <==> forall k :: k in Keys(values) ==> k in Keys(fields)
  {
    var s := ScanValues(fields, values, fits);
    ScanUnknown(fields, values, fits);
    if s.unknown != [] {
      assert s.unknown[0] in Without(Keys(values), Keys(fields));
    }
  }

  /**
   * The main property of addElement: a row is accepted iff every declared field has a
   * value, every value has a declared field, and every value fits its field.
   */
  lemma AcceptedExactly(setName: string, fields: seq<(ArrayKey, FieldAttrs)>, values: seq<(ArrayKey, Value)>,
                        fits: Compatibility)
    requires Distinct(values)
    ensures ElementOutcome(setName, fields, values, fits).Done? <==>
      KeysMatch(fields, values) && forall i :: 0 <= i < |values| ==> !Incompatible(fields, values[i].0, values[i].1, fits)
  {
    NoneMissing(fields, values, fits);
    NoneUnknown(fields, values, fits);
    ScanInvalid(fields, values, fits);
    NoMisfit(fields, values, fits);
  }

  /**
   * Missing fields take precedence: a row lacking a declared field is rejected with the
   * missing names, in declaration order, followed by the unknown ones, whatever else is
   * wrong with it (unless an incompatible DateTime ended the loop first).
   */
  lemma MissingReportedFirst(setName: string, fields: seq<(ArrayKey, FieldAttrs)>, values: seq<(ArrayKey, Value)>,
                             fits: Compatibility)
    requires Distinct(values)
    requires exists k :: k in Keys(fields) && k !in Keys(values)
    requires forall i :: 0 <= i < |values| ==>
      !(Incompatible(fields, values[i].0, values[i].1, fits) && values[i].1.VDateTime?)
    ensures ElementOutcome(setName, fields, values, fits) ==
      Rejection(setName, MissingDetail(Without(Keys(fields), Keys(values)), Without(Keys(values), Keys(fields))))
  {
    NoneMissing(fields, values, fits);
    ScanMissing(fields, values, fits);
    ScanUnknown(fields, values, fits);
    FailsOnDateTime(setName, fields, values, fits);
  }

  /** A row whose keys match the fields exactly is rejected only for its incompatible values. */
  lemma InvalidReportedLast(setName: string, fields: seq<(ArrayKey, FieldAttrs)>, values: seq<(ArrayKey, Value)>,
                            fits: Compatibility)
    requires Distinct(values) && KeysMatch(fields, values)
    requires ElementOutcome(setName, fields, values, fits).Fail?
    requires ElementOutcome(setName, fields, values, fits).error.kind == InvalidArgument
    ensures exists i :: 0 <= i < |values| && Incompatible(fields, values[i].0, values[i].1, fits)
    ensures Complaints(Misfits(fields, values, fits)).Success?
      && ElementOutcome(setName, fields, values, fits) ==
           Rejection(setName, NotCompatible + PhpStrings.Join(Complaints(Misfits(fields, values, fits)).value, ","))
  {
    AcceptedExactly(setName, fields, values, fits);
    NoneMissing(fields, values, fits);
    NoneUnknown(fields, values, fits);
    ScanInvalid(fields, values, fits);
  }

  /** The fields as addElement reads them: each key with the field's attributes. */
  function Snapshot(fields: seq<(ArrayKey, Field)>): (r: seq<(ArrayKey, FieldAttrs)>)
    reads Values(fields)
    ensures |r| == |fields|
    ensures forall i :: 0 <= i < |fields| ==> r[i] == (fields[i].0, fields[i].1.Attrs())
  {
    if fields == [] then [] else [(fields[0].0, fields[0].1.Attrs())] + Snapshot(fields[1..])
  }

  /** Each field under the key PHP makes of its name: `$this->fields[$f->getName()] = $f`. */
  function Keyed(fs: seq<Field>): (r: seq<(ArrayKey, Field)>)
    reads fs
    ensures |r| == |fs| && forall i :: 0 <= i < |fs| ==> r[i] == (KeyOf(fs[i].name), fs[i])
  {
    if fs == [] then [] else Keyed(fs[..|fs| - 1]) + [(KeyOf(fs[|fs| - 1].name), fs[|fs| - 1])]
  }

  /** The fields a DataSet accepts: native types only, and no lists. */
  predicate Supported(f: FieldAttrs)
  {
    IsNativeType(f) && !f.list
  }

  const UnsupportedType := " has an unsupported field type: "
  const NativeOnly := ". DataSet only support native fields right now."
  const NoLists := "DataSet does not support list fields."

  /** DataSet.addField's guard and its two messages. */
  function FieldSupport(f: FieldAttrs): (r: Outcome)
    ensures r.Done? <==> Supported(f)
    ensures !IsNativeType(f) ==> r == Fail(Error(InvalidArgument, f.name + UnsupportedType + f.fieldType + NativeOnly))
    ensures IsNativeType(f) && f.list ==> r == Fail(Error(InvalidArgument, f.name + UnsupportedType + NoLists))
  {
    if !IsNativeType(f) then Fail(Error(InvalidArgument, f.name + UnsupportedType + f.fieldType + NativeOnly))
    else if f.list then Fail(Error(InvalidArgument, f.name + UnsupportedType + NoLists))
    else Done
  }

  /** The position of the first failure among the outcomes, or their count when none fails. */
  function FirstFailure(os: seq<Outcome>): (k: nat)
    ensures k <= |os| && (k < |os| ==> os[k].Fail?)
    ensures forall j :: 0 <= j < k ==> os[j].Done?
  {
    if os == [] then 0
    else if os[0].Fail? then 0
    else 1 + FirstFailure(os[1..])
  }

  /** The first failure is where the successes end. */
  lemma {:induction false} FirstFailureIs(os: seq<Outcome>, i: nat)
    requires i <= |os| && (i < |os| ==> os[i].Fail?)
    requires forall j :: 0 <= j < i ==> os[j].Done?
    ensures FirstFailure(os) == i
    decreases i
  {
    if i > 0 {
      assert os[0].Done?;
      FirstFailureIs(os[1..], i - 1);
    }
  }

  /** The fields' attributes, as read at the call. */
  function AttrsOf(fs: seq<Field>): (r: seq<FieldAttrs>)
    reads fs
    ensures |r| == |fs| && forall i :: 0 <= i < |fs| ==> r[i] == fs[i].Attrs()
  {
    if fs == [] then [] else [fs[0].Attrs()] + AttrsOf(fs[1..])
  }

  /** What addField makes of each of the fields. */
  function Supports(attrs: seq<FieldAttrs>): (r: seq<Outcome>)
    ensures |r| == |attrs| && forall i :: 0 <= i < |attrs| ==> r[i] == FieldSupport(attrs[i])
  {
    if attrs == [] then [] else [FieldSupport(attrs[0])] + Supports(attrs[1..])
  }

  /** Every one of the fields is supported. */
  predicate AllSupported(attrs: seq<FieldAttrs>)
  {
    attrs == [] || (AllSupported(attrs[..|attrs| - 1]) && Supported(attrs[|attrs| - 1]))
  }

  /** setFields stops at the first unsupported field. */
  lemma {:induction false} FirstUnsupported(attrs: seq<FieldAttrs>, i: nat)
    requires i <= |attrs| && (i < |attrs| ==> !Supported(attrs[i]))
    requires AllSupported(attrs[..i])
    ensures FirstFailure(Supports(attrs)) == i
  {
    AllSupportedEach(attrs[..i]);
    FirstFailureIs(Supports(attrs), i);
  }

  lemma {:induction false} AllSupportedEach(attrs: seq<FieldAttrs>)
    ensures AllSupported(attrs) <==> forall j :: 0 <= j < |attrs| ==> Supported(attrs[j])
    decreases |attrs|
  {
    if attrs != [] {
      var init := attrs[..|attrs| - 1];
      AllSupportedEach(init);
      assert forall j :: 0 <= j < |init| ==> init[j] == attrs[j];
    }
  }

  /**
   * What setFields leaves for fields with these attributes and keyed entries: the fields
   * up to the first unsupported one stored in order, and that one's refusal.
   */
  predicate FieldsStored(r: Outcome, fields: seq<(ArrayKey, Field)>, attrs: seq<FieldAttrs>, keyed: seq<(ArrayKey, Field)>)
  {
    var k := FirstFailure(Supports(attrs));
    k <= |keyed|
    && (r.Done? <==> k == |attrs|)
    && (r.Fail? ==> r == FieldSupport(attrs[k]))
    && fields == PutAll([], keyed[..k])
  }

  /** The loop of setFields ends in that state, at a refusal or after the last field. */
  lemma FieldsStoredAt(r: Outcome, fields: seq<(ArrayKey, Field)>, attrs: seq<FieldAttrs>,
                       keyed: seq<(ArrayKey, Field)>, i: nat)
    requires i <= |attrs| == |keyed| && AllSupported(attrs[..i]) && fields == PutAll([], keyed[..i])
    requires i < |attrs| ==> r == FieldSupport(attrs[i]) && r.Fail?
    requires i == |attrs| ==> r.Done?
    ensures FieldsStored(r, fields, attrs, keyed)
  {
    FirstUnsupported(attrs, i);
  }

  /** The rows' values, as read at the call. */
  function ValuesOf(es: seq<DataSetElement>): (r: seq<seq<(ArrayKey, Value)>>)
    reads es
    ensures |r| == |es| && forall i :: 0 <= i < |es| ==> r[i] == es[i].values
  {
    if es == [] then [] else [es[0].values] + ValuesOf(es[1..])
  }

  /** One pass of the loop of setFields, from the state before addField to the state after. */
  lemma FieldStep(o: Outcome, before: seq<(ArrayKey, Field)>, after: seq<(ArrayKey, Field)>,
                  attrs: seq<FieldAttrs>, keyed: seq<(ArrayKey, Field)>, i: nat)
    requires i < |attrs| == |keyed| && AllSupported(attrs[..i]) && before == PutAll([], keyed[..i])
    requires o == FieldSupport(attrs[i])
    requires o.Done? ==> after == Put(before, keyed[i].0, keyed[i].1)
    requires o.Fail? ==> after == before
    ensures o.Fail? ==> FieldsStored(o, after, attrs, keyed)
    ensures o.Done? ==> AllSupported(attrs[..i + 1]) && after == PutAll([], keyed[..i + 1])
  {
    if o.Fail? {
      FieldsStoredAt(o, after, attrs, keyed, i);
    } else {
      assert attrs[..i + 1][..i] == attrs[..i];
      PutAllStep([], keyed, i);
    }
  }

  /** What addElement makes of each of the rows. */
  function RowOutcomes(setName: string, fields: seq<(ArrayKey, FieldAttrs)>, rows: seq<seq<(ArrayKey, Value)>>,
                       fits: Compatibility): (r: seq<Outcome>)
    ensures |r| == |rows| && forall i :: 0 <= i < |rows| ==> r[i] == ElementOutcome(setName, fields, rows[i], fits)
  {
    if rows == [] then [] else [ElementOutcome(setName, fields, rows[0], fits)] + RowOutcomes(setName, fields, rows[1..], fits)
  }

  /** None of the outcomes is a failure. */
  predicate AllDone(os: seq<Outcome>)
  {
    os == [] || (AllDone(os[..|os| - 1]) && os[|os| - 1].Done?)
  }

  lemma {:induction false} AllDoneEach(os: seq<Outcome>)
    ensures AllDone(os) <==> forall j :: 0 <= j < |os| ==> os[j].Done?
    decreases |os|
  {
    if os != [] {
      var init := os[..|os| - 1];
      AllDoneEach(init);
      assert forall j :: 0 <= j < |init| ==> init[j] == os[j];
    }
  }

  /** One accepted row extends the accepted prefix and the stored rows by one. */
  lemma RowStep(os: seq<Outcome>, es: seq<DataSetElement>, i: nat)
    requires i < |os| == |es| && AllDone(os[..i]) && os[i].Done?
    ensures AllDone(os[..i + 1]) && es[..i + 1] == es[..i] + [es[i]]
  {
    assert os[..i + 1][..i] == os[..i];
  }

  /**
   * What setElements leaves when its rows have these outcomes: the rows up to the first
   * rejected one, and that one's rejection.
   */
  predicate RowsStored(r: Outcome, elements: seq<DataSetElement>, es: seq<DataSetElement>, os: seq<Outcome>)
  {
    var k := FirstFailure(os);
    k <= |es|
    && (r.Done? <==> k == |os|)
    && (r.Fail? ==> r == os[k])
    && elements == es[..k]
  }

  /** The loop of setElements ends in that state, at a rejection or after the last row. */
  lemma RowsStoredAt(r: Outcome, elements: seq<DataSetElement>, es: seq<DataSetElement>, os: seq<Outcome>, i: nat)
    requires i <= |os| == |es| && AllDone(os[..i]) && elements == es[..i]
    requires i < |os| ==> r == os[i] && r.Fail?
    requires i == |os| ==> r.Done?
    ensures RowsStored(r, elements, es, os)
  {
    AllDoneEach(os[..i]);
    assert forall j :: 0 <= j < i ==> os[..i][j] == os[j];
    FirstFailureIs(os, i);
  }

  /** What ScanRow reports decides the row's outcome. */
  lemma ScanOutcome(setName: string, start: seq<(ArrayKey, FieldAttrs)>, values: seq<(ArrayKey, Value)>,
                    fits: Compatibility, missing: seq<(ArrayKey, FieldAttrs)>, invalid: seq<string>,
                    unknown: seq<ArrayKey>, stop: Option<Error>)
    requires var s := ScanValues(start, values, fits);
      (stop.Some? <==> Complaints(s.invalid).Failure?)
      && (stop.Some? ==> stop.value == Complaints(s.invalid).error)
      && (stop.None? ==> missing == s.missing && unknown == s.unknown && invalid == Complaints(s.invalid).value)
    ensures stop.Some? ==> ElementOutcome(setName, start, values, fits) == Fail(stop.value)
    ensures stop.None? ==> ElementOutcome(setName, start, values, fits) == Verdict(setName, missing, unknown, invalid)
  { }

  /**
   * The loop of addElement: each value claims the missing field of its name or is
   * unknown, and an incompatible one adds a complaint. Interpolating a DateTime into a
   * complaint stops the loop.
   */
  method ScanRow(start: seq<(ArrayKey, FieldAttrs)>, values: seq<(ArrayKey, Value)>, fits: Compatibility)
    returns (missing: seq<(ArrayKey, FieldAttrs)>, invalid: seq<string>, unknown: seq<ArrayKey>, stop: Option<Error>)
    ensures var s := ScanValues(start, values, fits);
      (stop.Some? <==> Complaints(s.invalid).Failure?)
      && (stop.Some? ==> stop.value == Complaints(s.invalid).error)
      && (stop.None? ==> missing == s.missing && unknown == s.unknown && invalid == Complaints(s.invalid).value)
  {
    missing := start;
    invalid := [];
    unknown := [];
    ghost var misfits: seq<Misfit> := [];
    assert ScanValues(start, values[..0], fits) == Scan(missing, misfits, unknown);
    assert Complaints(misfits) == Success(invalid);
    hide ScanValues, Complaints;
    var i := 0;
    while i < |values|
      invariant 0 <= i <= |values|
      invariant ScanValues(start, values[..i], fits) == Scan(missing, misfits, unknown)
      invariant Complaints(misfits) == Success(invalid)
    {
      var (key, value) := values[i];
      ScanStep(start, values, i, fits);
      var found := Get(missing, key);
      if found.Some? {
        missing := Remove(missing, key);
        if !fits(found.value, value) {
          var m := Misfit(key, value, found.value);
          var c := Complaint(m);
          if c.Failure? {
            InvalidGrows(start, values, i + 1, fits);
            MisfitStops(ScanValues(start, values, fits).invalid, misfits, m);
            return missing, invalid, unknown, Some(c.error);
          }
          ComplaintsSnoc(misfits, m);
          invalid := invalid + [c.value];
          misfits := misfits + [m];
        }
      } else {
        unknown := unknown + [key];
      }
      i := i + 1;
    }
    assert values[..|values|] == values;
    stop := None;
  }

  /** One more value scanned. */
  lemma ScanStep(start: seq<(ArrayKey, FieldAttrs)>, values: seq<(ArrayKey, Value)>, i: nat, fits: Compatibility)
    requires i < |values|
    ensures ScanValues(start, values[..i + 1], fits) == ScanValue(ScanValues(start, values[..i], fits), values[i].0, values[i].1, fits)
  {
    assert values[..i + 1][..i] == values[..i];
  }

  /** One more complaint, when it can be written. */
  lemma ComplaintsSnoc(ms: seq<Misfit>, m: Misfit)
    requires Complaints(ms).Success? && Complaint(m).Success?
    ensures Complaints(ms + [m]) == Success(Complaints(ms).value + [Complaint(m).value])
  {
    assert (ms + [m])[..|ms|] == ms;
  }

  /** A DateTime among the misfits makes the complaints fail. */
  lemma MisfitStops(all: seq<Misfit>, ms: seq<Misfit>, m: Misfit)
    requires ms + [m] <= all && m.value.VDateTime?
    ensures Complaints(all).Failure? && Complaints(all).error == Error(Fatal, DateTimeToString)
  {
    assert all[|ms|] == m;
  }

  class DataSet {
    var name: string
    var description: string
    var fields: seq<(ArrayKey, Field)>
    var elements: seq<DataSetElement>

    constructor (name: string, description: string := "")
      ensures this.name == name && this.description == description && fields == [] && elements == []
    {
      this.name := name;
      this.description := description;
      fields := [];
      elements := [];
    }

    method SetName(name: string)
      modifies this
      ensures this.name == name && description == old(description)
      ensures fields == old(fields) && elements == old(elements)
    {
      this.name := name;
    }

    method SetDescription(description: string)
      modifies this
      ensures this.description == description && name == old(name)
      ensures fields == old(fields) && elements == old(elements)
    {
      this.description := description;
    }

    /** Stores a native, non-list field under its name; anything else is refused. */
    method AddField(field: Field) returns (r: Outcome)
      modifies this
      ensures r == FieldSupport(field.Attrs())
      ensures r.Done? ==> fields == Put(old(fields), KeyOf(field.name), field)
      ensures r.Fail? ==> fields == old(fields)
      ensures name == old(name) && description == old(description) && elements == old(elements)
    {
      r := FieldSupport(field.Attrs());
      if r.Done? {
        fields := Put(fields, KeyOf(field.name), field);
      }
    }

    /**
     * Empties the fields and adds the given ones; the first unsupported field stops the
     * loop with the fields before it in place.
     */
    method SetFields(fs: seq<Field>) returns (r: Outcome)
      modifies this
      ensures FieldsStored(r, fields, old(AttrsOf(fs)), old(Keyed(fs)))
      ensures name == old(name) && description == old(description) && elements == old(elements)
    {
      ghost var keyed := Keyed(fs);
      ghost var attrs := AttrsOf(fs);
      assert AllSupported(attrs[..0]) && PutAll([], keyed[..0]) == [];
      hide PutAll, AllSupported;
      fields := [];
      var i := 0;
      while i < |fs|
        invariant 0 <= i <= |fs|
        invariant AllSupported(attrs[..i])
        invariant fields == PutAll([], keyed[..i])
        invariant name == old(name) && description == old(description) && elements == old(elements)
      {
        assert fs[i].Attrs() == attrs[i] && keyed[i] == (KeyOf(fs[i].name), fs[i]);
        ghost var before := fields;
        var o := AddField(fs[i]);
        FieldStep(o, before, fields, attrs, keyed, i);
        if o.Fail? {
          return o;
        }
        i := i + 1;
      }
      r := Done;
      FieldsStoredAt(r, fields, attrs, keyed, i);
    }

    /** `isset($this->fields[$name]) ? $this->fields[$name] : null`. */
    function GetField(name: string): (r: Field?)
      reads this
      ensures r != null <==> HasKey(fields, KeyOf(name))
      ensures r != null ==> (KeyOf(name), r) in fields
    {
      var o := Get(fields, KeyOf(name));
      if o.Some? then o.value else null
    }

    /**
     * Appends the row when its values match the fields (no duplicate check); a rejected
     * row leaves the data set as it was. `fits` is FieldHelper's isValueCompatible, which
     * is `Compat(foreign)` for the checks PHP itself performs.
     */
    method AddElement(element: DataSetElement, fits: Compatibility) returns (r: Outcome)
      modifies this
      ensures r == ElementOutcome(old(name), old(Snapshot(fields)), old(element.values), fits)
      ensures r.Done? ==> elements == old(elements) + [element]
      ensures r.Fail? ==> elements == old(elements)
      ensures name == old(name) && description == old(description) && fields == old(fields)
    {
      ghost var start := Snapshot(fields);
      var missing, invalid, unknown, stop := ScanRow(Snapshot(fields), element.values, fits);
      ScanOutcome(name, start, element.values, fits, missing, invalid, unknown, stop);
      if stop.Some? {
        return Fail(stop.value);
      }
      r := Verdict(name, missing, unknown, invalid);
      if r.Done? {
        elements := elements + [element];
      }
    }

    /** Empties the rows and adds the given ones; the first rejected row stops the loop. */
    method SetElements(es: seq<DataSetElement>, fits: Compatibility) returns (r: Outcome)
      modifies this
      ensures RowsStored(r, elements, es, old(RowOutcomes(name, Snapshot(fields), ValuesOf(es), fits)))
      ensures name == old(name) && description == old(description) && fields == old(fields)
    {
      ghost var start := Snapshot(fields);
      ghost var rows := ValuesOf(es);
      ghost var os := RowOutcomes(name, start, rows, fits);
      hide RowOutcomes, ElementOutcome;
      elements := [];
      var i := 0;
      while i < |es|
        invariant 0 <= i <= |es| && elements == es[..i]
        invariant AllDone(os[..i])
        invariant name == old(name) && description == old(description) && fields == old(fields)
      {
        assert Snapshot(fields) == start && es[i].values == rows[i];
        var o := AddElement(es[i], fits);
        assert o == os[i];
        if o.Fail? {
          RowsStoredAt(o, elements, es, os, i);
          return o;
        }
        RowStep(os, es, i);
        i := i + 1;
      }
      r := Done;
      RowsStoredAt(r, elements, es, os, i);
    }
  }

  // ---- the older row class ----

  const NoIdentifiedDataset :=
    "You must assign a Dataset (with an identifier) to an element before retrieving its identifier value"
  const NoDataset := "You must assign a Dataset to an element before retrieving its unique name"
  const NullGetType := "Call to a member function getType() on null"

  /** A row that knows its data set and derives an identifier and a unique name from it. */
  class DatasetElement {
    var dataset: DataSet?
    var values: seq<(ArrayKey, Value)>

    constructor Empty()
      ensures dataset == null && values == []
    {
      dataset := null;
      values := [];
    }

    /** `new DatasetElement($values)`: the constructor throws when setValues does. */
    static method New(values: seq<(ArrayKey, Value)>) returns (r: Result<DatasetElement>)
      ensures r.Success? <==> AllStringKeys(values)
      ensures r.Failure? ==> r.error == Error(InvalidArgument, NotAssociative)
      ensures r.Success? ==> fresh(r.value) && r.value.values == values && r.value.dataset == null
    {
      var e := new DatasetElement.Empty();
      var o := e.SetValues(values);
      if o.Fail? {
        return Failure(o.error);
      }
      r := Success(e);
    }

    method SetDataset(dataset: DataSet) returns (r: DatasetElement)
      modifies this
      ensures r == this && this.dataset == dataset && values == old(values)
    {
      this.dataset := dataset;
      r := this;
    }

    method SetValues(values: seq<(ArrayKey, Value)>) returns (r: Outcome)
      modifies this
      ensures r.Done? <==> AllStringKeys(values)
      ensures r.Fail? ==> r.error == Error(InvalidArgument, NotAssociative) && this.values == old(this.values)
      ensures r.Done? ==> this.values == values
      ensures dataset == old(dataset)
    {
      r := CheckValues(values);
      if r.Done? {
        this.values := values;
      }
    }

    method AddValue(name: string, value: Value) returns (r: DatasetElement)
      modifies this
      ensures r == this && values == Put(old(values), KeyOf(name), value) && dataset == old(dataset)
    {
      values := Put(values, KeyOf(name), value);
      r := this;
    }

    /** getValue: mixed, null when the name is absent or holds null. */
    function GetValue(name: string): (r: Value)
      reads this
      ensures r != VNull ==> (KeyOf(name), r) in values
      ensures !HasKey(values, KeyOf(name)) ==> r == VNull
    {
      Lookup(values, name)
    }

    /**
     * `identifier` stands for `$this->dataset->getIdentifier()`, which the DataSet class does
     * not define; it is only consulted when a data set is assigned.
     */
    function GetIdentifierValue(identifier: Option<FieldAttrs>): (r: Result<Value>)
      reads this
      ensures r.Failure? <==> dataset == null || identifier.None?
      ensures r.Failure? ==> r.error == Error(Logic, NoIdentifiedDataset)
      ensures r.Success? ==> r.value == GetValue(identifier.value.name)
    {
      if dataset != null && identifier.Some? then Success(GetValue(identifier.value.name))
      else Failure(Error(Logic, NoIdentifiedDataset))
    }

    /**
     * `identifier` stands for the data set's missing getIdentifier() and `nameIsUnique` for
     * its missing isUniqueField('name').
     */
    function GetUniqueName(identifier: Option<FieldAttrs>, nameIsUnique: bool): (r: Result<string>)
      reads this, dataset
      ensures dataset == null ==> r == Failure(Error(Logic, NoDataset))
      ensures dataset != null && identifier.None? ==> r == Failure(Error(Fatal, NullGetType))
      // a string identifier's value is the name
      ensures dataset != null && identifier.Some? && identifier.value.fieldType == STRING ==>
        r == ReturnString(GetValue(identifier.value.name))
      // otherwise a unique 'name' field's value
      ensures dataset != null && identifier.Some? && identifier.value.fieldType != STRING
              && dataset.GetField("name") != null && nameIsUnique ==>
        r == ReturnString(GetValue("name"))
      // otherwise the data set's name, '_' and the identifier's value
      ensures dataset != null && identifier.Some? && identifier.value.fieldType != STRING
              && !(dataset.GetField("name") != null && nameIsUnique) ==>
        (r.Success? <==> !GetValue(identifier.value.name).VDateTime?)
        && (r.Success? ==> r.value == dataset.name + "_" + StringOf(GetValue(identifier.value.name)).value)
    {
      if dataset == null then
        Failure(Error(Logic, NoDataset))
      else if identifier.None? then
        Failure(Error(Fatal, NullGetType))
      else if identifier.value.fieldType == STRING then
        ReturnString(GetValue(identifier.value.name))
      else if dataset.GetField("name") != null && nameIsUnique then
        ReturnString(GetValue("name"))
      else
        var text :- StringOf(GetValue(identifier.value.name));
        Success(dataset.name + "_" + text)
    }

  }
}
