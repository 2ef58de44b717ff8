/** The data the validator inspects. Go reflection over struct types is replaced
    by an explicit, self-describing value tree: a record lists its fields in
    declaration order, each with its Go name, its `json` tag, its `snapValidator`
    tag and its current value. */
module Values {

  datatype Value =
    | Str(s: string)
    | Int(i: int)              // every Go integer kind, signed or unsigned, by its value
    | Bool(b: bool)
    | Record(fields: seq<Field>)
    | Slice(elems: seq<Value>) // a non-nil slice (possibly of length 0)
    | NilSlice
    | Ptr(target: Value)       // a non-nil pointer and the value it points to
    | NilPtr

  /** One struct field: `name` is the Go field name, `json` and `tag` the raw text of
      its `json` and `snapValidator` struct tags (`""` when the tag is absent). */
  datatype Field = Field(name: string, json: string, tag: string, value: Value)

  /** One entry of the ancestor list (`ValidatorProperty`): the field descended through,
      and for a slice field the index of the element being visited. */
  datatype Property = Property(fieldName: string, jsonName: string, isArray: bool, index: nat)

  /** `reflect.DeepEqual(v, zero value of v's type)`. A nil slice and a nil pointer are
      the zero values; an empty but non-nil slice is not. */
  predicate IsZero(v: Value)
    decreases v
  {
    match v
    case Str(s) => s == ""
    case Int(i) => i == 0
    case Bool(b) => !b
    case Record(fs) => forall k | 0 <= k < |fs| :: IsZero(fs[k].value)
    case Slice(_) => false
    case NilSlice => true
    case Ptr(_) => false
    case NilPtr => true
  }

  /** The shape `validate` can walk without panicking: every slice it descends into
      holds records (it calls `NumField` on each element). Pointers are never
      descended into, so what they point to is unconstrained. */
  predicate WellFormed(v: Value)
    decreases v
  {
    match v
    case Record(fs) => forall k | 0 <= k < |fs| :: WellFormed(fs[k].value)
    case Slice(es) => forall j | 0 <= j < |es| :: es[j].Record? && WellFormed(es[j])
    case _ => true
  }

  /** A record that can be handed to the validator. */
  predicate IsWalkable(v: Value) {
    v.Record? && WellFormed(v)
  }

  /** The ancestor entry appended when descending into a nested record. */
  function RecordEntry(f: Field): Property {
    Property(f.name, f.json, false, 0)
  }

  /** The ancestor entry appended when descending into element `j` of a slice field. */
  function ElementEntry(f: Field, j: nat): Property {
    Property(f.name, f.json, true, j)
  }
}
