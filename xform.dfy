/** The pairwise operational-transformation functions (OTFs).  Each takes the
    server operation `s` and a concurrent client operation `c` on the same
    node and returns the pair (s', c'): the client applies c' after s, the
    server effectively applies s' after c. */
module Xform {
  import opened Ops

  datatype OperationPair = OperationPair(serverOp: Op, clientOp: Op)

  /** The pair read the other way round, as the dispatcher does when it runs
      a function with its arguments swapped. */
  function Swap(p: OperationPair): OperationPair {
    OperationPair(p.clientOp, p.serverOp)
  }

  // ---------------------------------------------------------------------
  // Reference semantics: what applying an operation does to a node value.
  // None stands for an operation the tree rejects (wrong node kind, index or
  // property out of range).

  function Apply(v: Value, op: Op): (r: Option<Value>)
    ensures op.noOp ==> r == Some(v)
    ensures r.Some? && !op.noOp && op.kind.StringSet? ==> r.value == StringValue(op.kind.str)
    ensures r.Some? && !op.noOp && op.kind.ArraySet? ==> r.value == ArrayValue(op.kind.items)
    ensures r.Some? && !op.noOp && op.kind.ObjectSet? ==> r.value == ObjectValue(op.kind.props)
  {
    if op.noOp then Some(v)
    else match op.kind
      case StringInsert(i, t) =>
        if v.StringValue? && 0 <= i <= |v.s| then Some(StringValue(v.s[..i] + t + v.s[i..])) else None
      case StringRemove(i, t) =>
        if v.StringValue? && 0 <= i && i + |t| <= |v.s| then Some(StringValue(v.s[..i] + v.s[i + |t|..])) else None
      case StringSet(x) =>
        if v.StringValue? then Some(StringValue(x)) else None
      case ArrayInsert(i, x) =>
        if v.ArrayValue? && 0 <= i <= |v.items| then Some(ArrayValue(v.items[..i] + [x] + v.items[i..])) else None
      case ArrayRemove(i) =>
        if v.ArrayValue? && 0 <= i < |v.items| then Some(ArrayValue(v.items[..i] + v.items[i + 1..])) else None
      case ArrayReplace(i, x) =>
        if v.ArrayValue? && 0 <= i < |v.items| then Some(ArrayValue(v.items[i := x])) else None
      case ArrayMove(f, t) =>
        if v.ArrayValue? && 0 <= f < |v.items| && 0 <= t < |v.items| then
          var rest := v.items[..f] + v.items[f + 1..];
          Some(ArrayValue(rest[..t] + [v.items[f]] + rest[t..]))
        else None
      case ArraySet(xs) =>
        if v.ArrayValue? then Some(ArrayValue(xs)) else None
      case ObjectAddProperty(k, x) =>
        if v.ObjectValue? && k !in v.props then Some(ObjectValue(v.props[k := x])) else None
      case ObjectSetProperty(k, x) =>
        if v.ObjectValue? && k in v.props then Some(ObjectValue(v.props[k := x])) else None
      case ObjectRemoveProperty(k) =>
        if v.ObjectValue? && k in v.props then Some(ObjectValue(v.props - {k})) else None
      case ObjectSet(m) =>
        if v.ObjectValue? then Some(ObjectValue(m)) else None
      case NumberAdd(d) =>
        if v.NumberValue? then Some(NumberValue(v.n + d)) else None
      case NumberSet(x) =>
        if v.NumberValue? then Some(NumberValue(x)) else None
      case DateSet(ms) =>
        if v.DateValue? then Some(DateValue(ms)) else None
  }

  /** Apply `op` to the outcome of an earlier step. */
  function Then(r: Option<Value>, op: Op): Option<Value> {
    if r.Some? then Apply(r.value, op) else None
  }

  /** The convergence property (TP1) of a transformed pair: s then c' and
      c then s' are both accepted and end at the same value. */
  predicate Converges(v: Value, s: Op, c: Op, p: OperationPair) {
    Then(Apply(v, s), p.clientOp).Some? && Then(Apply(v, s), p.clientOp) == Then(Apply(v, c), p.serverOp)
  }

  /** The inputs a transformation function is meant for: two effective
      operations, each valid on the common starting value. */
  predicate Concurrent(v: Value, s: Op, c: Op) {
    !s.noOp && !c.noOp && Apply(v, s).Some? && Apply(v, c).Some?
  }

  // ---------------------------------------------------------------------
  // Object

  /** O-RT: a server RemoveProperty against a client SetProperty. */
  function ObjectRemovePropertySetPropertyOTF(s: Op, c: Op): (p: OperationPair)
    requires s.kind.ObjectRemoveProperty? && c.kind.ObjectSetProperty?
    ensures s.kind.prop != c.kind.prop ==> p == OperationPair(s, c)
    ensures s.kind.prop == c.kind.prop ==> p.serverOp.noOp && SameExceptNoOp(p.serverOp, s)
    ensures s.kind.prop == c.kind.prop ==>
      p.clientOp.id == c.id && p.clientOp.noOp == c.noOp &&
      p.clientOp.kind == ObjectAddProperty(c.kind.prop, c.kind.value)
  {
    if s.kind.prop != c.kind.prop then
      // O-RT-1
      OperationPair(s, c)
    else
      // O-RT-2
      OperationPair(CopyNoOp(s), Op(c.id, c.noOp, ObjectAddProperty(c.kind.prop, c.kind.value)))
  }

  lemma ObjectRemovePropertySetPropertyConverges(v: Value, s: Op, c: Op)
    requires s.kind.ObjectRemoveProperty? && c.kind.ObjectSetProperty?
    requires Concurrent(v, s, c)
    ensures Converges(v, s, c, ObjectRemovePropertySetPropertyOTF(s, c))
  {
    var m, k, x := v.props, c.kind.prop, c.kind.value;
    if s.kind.prop == k {
      assert (m - {k})[k := x] == m[k := x];
    } else {
      assert (m - {s.kind.prop})[k := x] == m[k := x] - {s.kind.prop};
    }
  }

  /** O-TS: a server SetProperty against a client object Set. */
  function ObjectSetPropertySetOTF(s: Op, c: Op): (p: OperationPair)
    requires s.kind.ObjectSetProperty? && c.kind.ObjectSet?
    ensures p.serverOp.noOp && SameExceptNoOp(p.serverOp, s)
    ensures p.clientOp == c
  {
    // O-TS-1
    OperationPair(CopyNoOp(s), c)
  }

  lemma ObjectSetPropertySetConverges(v: Value, s: Op, c: Op)
    requires s.kind.ObjectSetProperty? && c.kind.ObjectSet?
    requires Concurrent(v, s, c)
    ensures Converges(v, s, c, ObjectSetPropertySetOTF(s, c))
  {
  }

  /** O-SA: a server object Set against a client AddProperty. */
  function ObjectSetAddPropertyOTF(s: Op, c: Op): (p: OperationPair)
    requires s.kind.ObjectSet? && c.kind.ObjectAddProperty?
    ensures p.serverOp == s
    ensures p.clientOp.noOp && SameExceptNoOp(p.clientOp, c)
  {
    // O-SA-1
    OperationPair(s, CopyNoOp(c))
  }

  lemma ObjectSetAddPropertyConverges(v: Value, s: Op, c: Op)
    requires s.kind.ObjectSet? && c.kind.ObjectAddProperty?
    requires Concurrent(v, s, c)
    ensures Converges(v, s, c, ObjectSetAddPropertyOTF(s, c))
  {
  }

  // ---------------------------------------------------------------------
  // Date

  /** D-SS: two concurrent date Sets. */
  function DateSetSetOTF(s: Op, c: Op): (p: OperationPair)
    requires s.kind.DateSet? && c.kind.DateSet?
    ensures s.kind.millis == c.kind.millis ==> p == OperationPair(CopyNoOp(s), CopyNoOp(s))
    ensures s.kind.millis != c.kind.millis ==> p.serverOp == s && p.clientOp == CopyNoOp(c)
    ensures p.clientOp.noOp && p.clientOp.kind == c.kind
  {
    if s.kind.millis == c.kind.millis then
      // D-SS-1
      OperationPair(CopyNoOp(s), CopyNoOp(s))
    else
      // D-SS-2
      OperationPair(s, CopyNoOp(c))
  }

  /** Building the equal-time client side from `s` rather than from `c` is
      invisible when both target the same node. */
  lemma DateSetSetClientSideIsClientCopy(s: Op, c: Op)
    requires s.kind.DateSet? && c.kind.DateSet?
    requires s.id == c.id
    ensures DateSetSetOTF(s, c).clientOp == CopyNoOp(c)
  {
  }

  lemma DateSetSetConverges(v: Value, s: Op, c: Op)
    requires s.kind.DateSet? && c.kind.DateSet?
    requires Concurrent(v, s, c)
    ensures Converges(v, s, c, DateSetSetOTF(s, c))
  {
  }

  // ---------------------------------------------------------------------
  // Array

  /** A-SS: two concurrent array Sets; values are compared deeply, which for
      model values is equality. */
  function ArraySetSetOTF(s: Op, c: Op): (p: OperationPair)
    requires s.kind.ArraySet? && c.kind.ArraySet?
    ensures p.clientOp == CopyNoOp(c)
    ensures s.kind.items != c.kind.items ==> p.serverOp == s
    ensures s.kind.items == c.kind.items ==> p.serverOp == CopyNoOp(s)
    ensures !s.noOp ==> (p.serverOp.noOp <==> s.kind.items == c.kind.items)
  {
    if s.kind.items != c.kind.items then
      // A-SS-1
      OperationPair(s, CopyNoOp(c))
    else
      // A-SS-2
      OperationPair(CopyNoOp(s), CopyNoOp(c))
  }

  lemma ArraySetSetConverges(v: Value, s: Op, c: Op)
    requires s.kind.ArraySet? && c.kind.ArraySet?
    requires Concurrent(v, s, c)
    ensures Converges(v, s, c, ArraySetSetOTF(s, c))
  {
  }

  /** A-PS: a server Replace against a client array Set. */
  function ArrayReplaceSetOTF(s: Op, c: Op): (p: OperationPair)
    requires s.kind.ArrayReplace? && c.kind.ArraySet?
    ensures p.serverOp.noOp && SameExceptNoOp(p.serverOp, s)
    ensures p.clientOp == c
  {
    // A-PS-1
    OperationPair(CopyNoOp(s), c)
  }

  lemma ArrayReplaceSetConverges(v: Value, s: Op, c: Op)
    requires s.kind.ArrayReplace? && c.kind.ArraySet?
    requires Concurrent(v, s, c)
    ensures Converges(v, s, c, ArrayReplaceSetOTF(s, c))
  {
  }

  /** A-IS: a server Insert against a client array Set. */
  function ArrayInsertSetOTF(s: Op, c: Op): (p: OperationPair)
    requires s.kind.ArrayInsert? && c.kind.ArraySet?
    ensures p.serverOp.noOp && SameExceptNoOp(p.serverOp, s)
    ensures p.clientOp == c
  {
    // A-IS-1
    OperationPair(CopyNoOp(s), c)
  }

  lemma ArrayInsertSetConverges(v: Value, s: Op, c: Op)
    requires s.kind.ArrayInsert? && c.kind.ArraySet?
    requires Concurrent(v, s, c)
    ensures Converges(v, s, c, ArrayInsertSetOTF(s, c))
  {
  }

  /** A-SI: a server array Set against a client Insert. */
  function ArraySetInsertOTF(s: Op, c: Op): (p: OperationPair)
    requires s.kind.ArraySet? && c.kind.ArrayInsert?
    ensures p.serverOp == s
    ensures p.clientOp.noOp && SameExceptNoOp(p.clientOp, c)
  {
    // A-SI-1
    OperationPair(s, CopyNoOp(c))
  }

  lemma ArraySetInsertConverges(v: Value, s: Op, c: Op)
    requires s.kind.ArraySet? && c.kind.ArrayInsert?
    requires Concurrent(v, s, c)
    ensures Converges(v, s, c, ArraySetInsertOTF(s, c))
  {
  }

  /** A-SI is A-IS with the roles of server and client exchanged. */
  lemma ArraySetInsertMirrorsInsertSet(setOp: Op, ins: Op)
    requires setOp.kind.ArraySet? && ins.kind.ArrayInsert?
    ensures ArraySetInsertOTF(setOp, ins) == Swap(ArrayInsertSetOTF(ins, setOp))
  {
  }

  /** A-SR: a server array Set against a client Remove. */
  function ArraySetRemoveOTF(s: Op, c: Op): (p: OperationPair)
    requires s.kind.ArraySet? && c.kind.ArrayRemove?
    ensures p.serverOp == s
    ensures p.clientOp.noOp && SameExceptNoOp(p.clientOp, c)
  {
    // A-SR-1
    OperationPair(s, CopyNoOp(c))
  }

  lemma ArraySetRemoveConverges(v: Value, s: Op, c: Op)
    requires s.kind.ArraySet? && c.kind.ArrayRemove?
    requires Concurrent(v, s, c)
    ensures Converges(v, s, c, ArraySetRemoveOTF(s, c))
  {
  }

  // ---------------------------------------------------------------------
  // String

  /** S-SI: a server string Set against a client Insert. */
  function StringSetInsertOTF(s: Op, c: Op): (p: OperationPair)
    requires s.kind.StringSet? && c.kind.StringInsert?
    ensures p.serverOp == s
    ensures p.clientOp.noOp && SameExceptNoOp(p.clientOp, c)
  {
    // S-SI-1
    OperationPair(s, CopyNoOp(c))
  }

  lemma StringSetInsertConverges(v: Value, s: Op, c: Op)
    requires s.kind.StringSet? && c.kind.StringInsert?
    requires Concurrent(v, s, c)
    ensures Converges(v, s, c, StringSetInsertOTF(s, c))
  {
  }

  /** S-IS: a server Insert against a client string Set. */
  function StringInsertSetOTF(s: Op, c: Op): (p: OperationPair)
    requires s.kind.StringInsert? && c.kind.StringSet?
    ensures p.serverOp.noOp && SameExceptNoOp(p.serverOp, s)
    ensures p.clientOp == c
  {
    // S-IS-1
    OperationPair(CopyNoOp(s), c)
  }

  lemma StringInsertSetConverges(v: Value, s: Op, c: Op)
    requires s.kind.StringInsert? && c.kind.StringSet?
    requires Concurrent(v, s, c)
    ensures Converges(v, s, c, StringInsertSetOTF(s, c))
  {
  }

  /** S-IS is S-SI with the roles of server and client exchanged. */
  lemma StringInsertSetMirrorsSetInsert(ins: Op, setOp: Op)
    requires ins.kind.StringInsert? && setOp.kind.StringSet?
    ensures StringInsertSetOTF(ins, setOp) == Swap(StringSetInsertOTF(setOp, ins))
  {
  }

  /** S-RS: a server Remove against a client string Set. */
  function StringRemoveSetOTF(s: Op, c: Op): (p: OperationPair)
    requires s.kind.StringRemove? && c.kind.StringSet?
    ensures p.serverOp.noOp && SameExceptNoOp(p.serverOp, s)
    ensures p.clientOp == c
  {
    // S-RS-1
    OperationPair(CopyNoOp(s), c)
  }

  lemma StringRemoveSetConverges(v: Value, s: Op, c: Op)
    requires s.kind.StringRemove? && c.kind.StringSet?
    requires Concurrent(v, s, c)
    ensures Converges(v, s, c, StringRemoveSetOTF(s, c))
  {
  }

  /** S-SR: a server string Set against a client Remove. */
  function StringSetRemoveOTF(s: Op, c: Op): (p: OperationPair)
    requires s.kind.StringSet? && c.kind.StringRemove?
    ensures p.serverOp == s
    ensures p.clientOp.noOp && SameExceptNoOp(p.clientOp, c)
  {
    // S-SR-1
    OperationPair(s, CopyNoOp(c))
  }

  lemma StringSetRemoveConverges(v: Value, s: Op, c: Op)
    requires s.kind.StringSet? && c.kind.StringRemove?
    requires Concurrent(v, s, c)
    ensures Converges(v, s, c, StringSetRemoveOTF(s, c))
  {
  }

  /** S-SR is S-RS with the roles of server and client exchanged. */
  lemma StringSetRemoveMirrorsRemoveSet(setOp: Op, rem: Op)
    requires setOp.kind.StringSet? && rem.kind.StringRemove?
    ensures StringSetRemoveOTF(setOp, rem) == Swap(StringRemoveSetOTF(rem, setOp))
  {
  }

  // ---------------------------------------------------------------------
  // Number

  /** N-SA: a server number Set against a client Add. */
  function NumberSetAddOTF(s: Op, c: Op): (p: OperationPair)
    requires s.kind.NumberSet? && c.kind.NumberAdd?
    ensures p.serverOp == s
    ensures p.clientOp.noOp && SameExceptNoOp(p.clientOp, c)
  {
    // N-SA-1
    OperationPair(s, CopyNoOp(c))
  }

  lemma NumberSetAddConverges(v: Value, s: Op, c: Op)
    requires s.kind.NumberSet? && c.kind.NumberAdd?
    requires Concurrent(v, s, c)
    ensures Converges(v, s, c, NumberSetAddOTF(s, c))
  {
  }

  /** N-AA: two concurrent Adds pass through untouched. */
  function NumberAddAddOTF(s: Op, c: Op): (p: OperationPair)
    requires s.kind.NumberAdd? && c.kind.NumberAdd?
    ensures p.serverOp == s && p.clientOp == c
  {
    // N-AA-1
    OperationPair(s, c)
  }

  /** Integer addition commutes, which is what makes the pass-through
      correct; it would not hold for floating-point numbers. */
  lemma NumberAddAddConverges(v: Value, s: Op, c: Op)
    requires s.kind.NumberAdd? && c.kind.NumberAdd?
    requires Concurrent(v, s, c)
    ensures Converges(v, s, c, NumberAddAddOTF(s, c))
    ensures Then(Apply(v, s), c).value.n == v.n + s.kind.delta + c.kind.delta
  {
  }
}
