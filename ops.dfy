/** Operations of the real-time model: the immutable records that the
    operational-transformation functions take apart and rebuild. */
module Ops {

  datatype Option<+T> = None | Some(value: T)

  /** The value held by a node of the model tree.  Numbers are integers and
      dates are integer milliseconds (what `Date.getTime()` compares). */
  datatype Value =
    | NullValue
    | BooleanValue(b: bool)
    | NumberValue(n: int)
    | DateValue(millis: int)
    | StringValue(s: string)
    | ArrayValue(items: seq<Value>)
    | ObjectValue(props: map<string, Value>)

  /** The variant-specific part of an operation, one constructor per
      operation class. */
  datatype OpKind =
    | StringInsert(index: int, text: string)
    | StringRemove(index: int, removed: string)
    | StringSet(str: string)
    | ArrayInsert(index: int, value: Value)
    | ArrayRemove(index: int)
    | ArrayReplace(index: int, value: Value)
    | ArrayMove(fromIndex: int, toIndex: int)
    | ArraySet(items: seq<Value>)
    | ObjectAddProperty(prop: string, value: Value)
    | ObjectSetProperty(prop: string, value: Value)
    | ObjectRemoveProperty(prop: string)
    | ObjectSet(props: map<string, Value>)
    | NumberAdd(delta: int)
    | NumberSet(n: int)
    | DateSet(millis: int)

  /** A discrete operation: the id of the node it targets, the no-op flag and
      its variant. */
  datatype Op = Op(id: string, noOp: bool, kind: OpKind)

  /** The operation type tag each operation class passes to its base class. */
  datatype OperationType =
    | StringInsertType | StringRemoveType | StringValueType
    | ArrayInsertType | ArrayRemoveType | ArraySetType | ArrayReorderType | ArrayValueType
    | ObjectAddType | ObjectSetType | ObjectRemoveType | ObjectValueType
    | NumberAddType | NumberValueType | DateValueType

  function TypeOf(op: Op): (t: OperationType)
    ensures op.kind.StringSet? <==> t == StringValueType
  {
    match op.kind
    case StringInsert(_, _) => StringInsertType
    case StringRemove(_, _) => StringRemoveType
    case StringSet(_) => StringValueType
    case ArrayInsert(_, _) => ArrayInsertType
    case ArrayRemove(_) => ArrayRemoveType
    case ArrayReplace(_, _) => ArraySetType
    case ArrayMove(_, _) => ArrayReorderType
    case ArraySet(_) => ArrayValueType
    case ObjectAddProperty(_, _) => ObjectAddType
    case ObjectSetProperty(_, _) => ObjectSetType
    case ObjectRemoveProperty(_) => ObjectRemoveType
    case ObjectSet(_) => ObjectValueType
    case NumberAdd(_) => NumberAddType
    case NumberSet(_) => NumberValueType
    case DateSet(_) => DateValueType
  }

  /** Two operations that agree on everything but the no-op flag. */
  predicate SameExceptNoOp(a: Op, b: Op) {
    a.id == b.id && a.kind == b.kind
  }

  /** `op.copy({noOp: true})`: the same operation, marked as a no-op. */
  function CopyNoOp(op: Op): (r: Op)
    ensures r.noOp && SameExceptNoOp(r, op)
    ensures TypeOf(r) == TypeOf(op)
  {
    op.(noOp := true)
  }

  // ---------------------------------------------------------------------
  // StringSetOperation: construction and copy-with-updates

  /** `Immutable.update(current, update)`: the update when it is defined,
      otherwise the current value. */
  function Update<T>(current: T, update: Option<T>): (r: T)
    ensures update.Some? ==> r == update.value
    ensures update.None? ==> r == current
  {
    match update
    case Some(u) => u
    case None => current
  }

  /** The `updates` argument of `copy`: each field may be left undefined. */
  datatype StringSetUpdates = StringSetUpdates(id: Option<string>, noOp: Option<bool>, value: Option<string>)

  const NoUpdates := StringSetUpdates(None, None, None)

  /** `new StringSetOperation(id, noOp, value)`. */
  function NewStringSetOperation(id: string, noOp: bool, value: string): (r: Op)
    ensures TypeOf(r) == StringValueType
    ensures r.id == id && r.noOp == noOp && r.kind.str == value
  {
    Op(id, noOp, StringSet(value))
  }

  /** `StringSetOperation.copy(updates)`: a new operation whose every field is
      taken from `updates` where defined and from `op` otherwise; `op` itself
      is a value and so cannot be changed by the copy. */
  function Copy(op: Op, u: StringSetUpdates): (r: Op)
    requires op.kind.StringSet?
    ensures TypeOf(r) == StringValueType
    ensures u.id.None? ==> r.id == op.id
    ensures u.noOp.None? ==> r.noOp == op.noOp
    ensures u.value.None? ==> r.kind == op.kind
    ensures u.id.Some? ==> r.id == u.id.value
    ensures u.noOp.Some? ==> r.noOp == u.noOp.value
    ensures u.value.Some? ==> r.kind.str == u.value.value
  {
    NewStringSetOperation(Update(op.id, u.id), Update(op.noOp, u.noOp), Update(op.kind.str, u.value))
  }

  /** `copy({})` is field-by-field equal to the original. */
  lemma CopyNoUpdatesIsIdentity(op: Op)
    requires op.kind.StringSet?
    ensures Copy(op, NoUpdates) == op
  {
  }

  /** `copy({noOp: true})` is exactly the generic no-op copy the
      transformation functions use: only the flag changes. */
  lemma CopyNoOpUpdate(op: Op)
    requires op.kind.StringSet?
    ensures Copy(op, StringSetUpdates(None, Some(true), None)) == CopyNoOp(op)
  {
  }

  /** `copy({value: v})` changes only the value. */
  lemma CopyValueUpdate(op: Op, v: string)
    requires op.kind.StringSet?
    ensures Copy(op, StringSetUpdates(None, None, Some(v))) == op.(kind := StringSet(v))
  {
  }

  /** Copying twice with the same updates is copying once. */
  lemma CopyIdempotent(op: Op, u: StringSetUpdates)
    requires op.kind.StringSet?
    ensures Copy(Copy(op, u), u) == Copy(op, u)
  {
  }
}
