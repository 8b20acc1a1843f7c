/**
 * The part of Go's value model that the request pipeline inspects through reflection:
 * declared types, values, the zero value of each type, and `reflect.Value.IsZero`.
 */
module Values {

  /** A declared Go type, as far as the pipeline looks at it (its kind, struct layout and pointer target). */
  datatype ValueType =
    | IntType
    | BoolType
    | StringType
    | StructType(fieldTypes: seq<ValueType>)
    | MapType
    | SliceType
    | PointerType(elem: ValueType)

  /**
   * A Go value. Maps, slices and pointers each have a nil value distinct from every
   * non-nil one: `Map(map[])` is an allocated empty map, not `NilMap`.
   */
  datatype Value =
    | Int(i: int)
    | Bool(b: bool)
    | Str(s: string)
    | Struct(fields: seq<Value>)
    | NilMap
    | Map(entries: map<string, Value>)
    | NilSlice
    | Slice(elems: seq<Value>)
    | NilPointer
    | Pointer(target: Value)

  /** `v` is a value of declared type `t` (map entries and slice elements are not constrained). */
  predicate HasType(v: Value, t: ValueType)
    decreases t
  {
    match t
    case IntType => v.Int?
    case BoolType => v.Bool?
    case StringType => v.Str?
    case StructType(ts) =>
      v.Struct? && |v.fields| == |ts| &&
      forall k :: 0 <= k < |ts| ==> HasType(v.fields[k], ts[k])
    case MapType => v.NilMap? || v.Map?
    case SliceType => v.NilSlice? || v.Slice?
    case PointerType(e) => v.NilPointer? || (v.Pointer? && HasType(v.target, e))
  }

  /** The value Go gives a variable of type `t` that is declared without an initialiser (`var zero T`). */
  function ZeroOf(t: ValueType): Value
    decreases t
  {
    match t
    case IntType => Int(0)
    case BoolType => Bool(false)
    case StringType => Str("")
    case StructType(ts) => Struct(seq(|ts|, k requires 0 <= k < |ts| => ZeroOf(ts[k])))
    case MapType => NilMap
    case SliceType => NilSlice
    case PointerType(_) => NilPointer
  }

  /**
   * `reflect.ValueOf(v).IsZero()`: numbers, booleans and strings compare with their zero,
   * a struct is zero iff every field is, and a map, slice or pointer is zero iff it is nil.
   */
  predicate IsZero(v: Value)
    decreases v
  {
    match v
    case Int(i) => i == 0
    case Bool(b) => !b
    case Str(s) => s == ""
    case Struct(fs) => forall k :: 0 <= k < |fs| ==> IsZero(fs[k])
    case NilMap => true
    case Map(_) => false
    case NilSlice => true
    case Slice(_) => false
    case NilPointer => true
    case Pointer(_) => false
  }

  /** The zero value of a type has that type, and `IsZero` recognises it. */
  lemma {:induction false} ZeroOfIsZero(t: ValueType)
    ensures HasType(ZeroOf(t), t)
    ensures IsZero(ZeroOf(t))
    decreases t
  {
    match t
    case StructType(ts) =>
      var z := ZeroOf(t);
      forall k | 0 <= k < |ts|
        ensures HasType(z.fields[k], ts[k]) && IsZero(z.fields[k])
      {
        ZeroOfIsZero(ts[k]);
      }
    case _ =>
  }

  /**
   * `IsZero` agrees with comparison against the type's zero value: for a value of a declared
   * type, it is zero exactly when it equals `ZeroOf` that type.
   */
  lemma {:induction false} IsZeroIffZeroOf(v: Value, t: ValueType)
    requires HasType(v, t)
    ensures IsZero(v) <==> v == ZeroOf(t)
    decreases t
  {
    match t
    case StructType(ts) =>
      var z := ZeroOf(t);
      if IsZero(v) {
        forall k | 0 <= k < |ts|
          ensures v.fields[k] == z.fields[k]
        {
          IsZeroIffZeroOf(v.fields[k], ts[k]);
        }
        assert v.fields == z.fields;
      }
      if v == z {
        forall k | 0 <= k < |ts|
          ensures IsZero(v.fields[k])
        {
          IsZeroIffZeroOf(v.fields[k], ts[k]);
        }
      }
    case _ =>
  }

  /**
   * The three cases the package's own test checks (0, 1 and a struct whose one int field is 0),
   * plus one it does not: an allocated empty map is not zero.
   */
  lemma IsZeroExamples()
    ensures IsZero(Int(0))
    ensures !IsZero(Int(1))
    ensures IsZero(Struct([Int(0)]))
    ensures !IsZero(Map(map[]))
  {
  }
}
