/** The update-operator factories (UpdateOperators.java). Each static
    factory builds one operator value; only `dec(field, Number)` can throw.
    The operator classes other than the plain UpdateOperator are not part
    of this model: each is a variant carrying its constructor arguments. */
module Updates {
  import opened Wrappers
  import opened JavaNumbers

  /** An arbitrary Java object passed as a value, told apart only by identity. */
  datatype Value = Value(id: nat)

  /** A query filter from the filter DSL, carried unexamined. */
  datatype Filter = Filter(id: nat)

  /** The value argument of a plain `UpdateOperator`. */
  datatype Payload = Amount(number: Number) | Single(item: Value) | Many(items: seq<Value>)

  datatype UpdateOperator =
      /** `new UpdateOperator(operator, field, value)`. */
    | Operator(name: string, field: string, value: Payload)
    | AddToSetOp(field: string, toAdd: Payload)
    | BitOp(operation: string, field: string, amount: Int32)
    | CurrentDateOp(field: string)
    | PopOp(field: string)
    | PullOp(field: string, filter: Filter)
    | PushOp(field: string, pushed: seq<Value>)
    | SetEntityOp(entity: Value)
    | SetOnInsertOp(insertValues: map<string, Value>)
    | UnsetOp(field: string)
  {
    /** The field the operator updates; the two whole-document operators
        have none. */
    function Target(): Option<string> {
      if SetEntityOp? || SetOnInsertOp? then None else Some(field)
    }
  }

  /** `IllegalArgumentException(Sofia.onlyNumberTypesAllowed())`. */
  datatype ArgumentError = OnlyNumberTypesAllowed

  const INC := "$inc"
  const MAX := "$max"
  const MIN := "$min"
  const PULL_ALL := "$pullAll"
  const SET := "$set"

  const AND := "and"
  const OR := "or"
  const XOR := "xor"

  function AddToSet(field: string, value: Value): (r: UpdateOperator)
    ensures r.AddToSetOp? && r.Target() == Some(field)
  {
    AddToSetOp(field, Single(value))
  }

  function AddToSetAll(field: string, values: seq<Value>): (r: UpdateOperator)
    ensures r.AddToSetOp? && r.Target() == Some(field)
  {
    AddToSetOp(field, Many(values))
  }

  function And(field: string, value: Int32): (r: UpdateOperator)
    ensures r.BitOp? && r.Target() == Some(field)
  {
    BitOp(AND, field, value)
  }

  function Or(field: string, value: Int32): (r: UpdateOperator)
    ensures r.BitOp? && r.Target() == Some(field)
  {
    BitOp(OR, field, value)
  }

  function Xor(field: string, value: Int32): (r: UpdateOperator)
    ensures r.BitOp? && r.Target() == Some(field)
  {
    BitOp(XOR, field, value)
  }

  function CurrentDate(field: string): (r: UpdateOperator)
    ensures r.Target() == Some(field)
  {
    CurrentDateOp(field)
  }

  /** `inc(field, value)`: the amount is passed through as given. */
  function IncBy(field: string, value: Number): (r: UpdateOperator)
    ensures r.Target() == Some(field)
  {
    Operator(INC, field, Amount(value))
  }

  /** `inc(field)`: the literal `1`, boxed as an Integer. */
  function Inc(field: string): (r: UpdateOperator)
    ensures r.Target() == Some(field)
  {
    IncBy(field, JInteger(1))
  }

  /** `dec(field)`: the literal `-1`, boxed as an Integer. */
  function Dec(field: string): (r: UpdateOperator)
    ensures r.Target() == Some(field)
  {
    IncBy(field, JInteger(-1))
  }

  /** The argument kinds `dec(field, value)` accepts. */
  predicate Decrementable(value: Number) {
    value.IsIntegral() || value.IsFloating()
  }

  /** The amount `dec(field, value)` increments by, as the caller means it:
      the negation of `value`, as a Long for Integer and Long arguments and
      as a Double for Float and Double ones. Negating Long.MIN_VALUE gives
      Long.MIN_VALUE back, the only value with no 64-bit negation. */
  function NegatedAmount(value: Number): Number
    requires Decrementable(value)
  {
    if value.IsIntegral() then
      var x := value.LongValue();
      JLong(if x == LONG_MIN then LONG_MIN else -x)
    else
      JDouble(NegateDouble(value.DoubleValue()))
  }

  /** `dec(field, value)`: an `$inc` by `value * -1` in long or double
      arithmetic, and an exception for every other kind of Number, null
      included. */
  function DecBy(field: string, value: Number): (r: Result<UpdateOperator, ArgumentError>)
    ensures r.Success? <==> Decrementable(value)
    ensures r.Failure? ==> r.error == OnlyNumberTypesAllowed
    ensures r.Success? ==> r.value == IncBy(field, NegatedAmount(value))
  {
    if value.JLong? || value.JInteger? then
      Success(IncBy(field, JLong(NegateLong(value.LongValue()))))
    else if value.JDouble? || value.JFloat? then
      Success(IncBy(field, JDouble(NegateDouble(value.DoubleValue()))))
    else
      Failure(OnlyNumberTypesAllowed)
  }

  function Max(field: string, value: Number): (r: UpdateOperator)
    ensures r.Target() == Some(field)
  {
    Operator(MAX, field, Amount(value))
  }

  function Min(field: string, value: Number): (r: UpdateOperator)
    ensures r.Target() == Some(field)
  {
    Operator(MIN, field, Amount(value))
  }

  function Pop(field: string): (r: UpdateOperator)
    ensures r.Target() == Some(field)
  {
    PopOp(field)
  }

  function Pull(field: string, filter: Filter): (r: UpdateOperator)
    ensures r.PullOp? && r.Target() == Some(field) && r.filter == filter
  {
    PullOp(field, filter)
  }

  function PullAll(field: string, values: seq<Value>): (r: UpdateOperator)
    ensures r.Target() == Some(field)
  {
    Operator(PULL_ALL, field, Many(values))
  }

  /** `push(field, Object)`: the value wrapped in a singleton list. */
  function Push(field: string, value: Value): (r: UpdateOperator)
    ensures r.PushOp? && r.Target() == Some(field) && r.pushed == [value]
  {
    PushOp(field, [value])
  }

  /** `push(field, List)`: the list as given. */
  function PushAll(field: string, values: seq<Value>): (r: UpdateOperator)
    ensures r.PushOp? && r.Target() == Some(field)
  {
    PushOp(field, values)
  }

  function Set(field: string, value: Value): (r: UpdateOperator)
    ensures r.Target() == Some(field)
  {
    Operator(SET, field, Single(value))
  }

  /** `set(Object)`: replaces the whole document; no field. */
  function SetEntity(value: Value): (r: UpdateOperator)
    ensures r.SetEntityOp? && r.Target() == None && r.entity == value
  {
    SetEntityOp(value)
  }

  /** `setOnInsert(Map)`: a map of fields to values; no single field. */
  function SetOnInsert(values: map<string, Value>): (r: UpdateOperator)
    ensures r.SetOnInsertOp? && r.Target() == None && r.insertValues == values
  {
    SetOnInsertOp(values)
  }

  function Unset(field: string): (r: UpdateOperator)
    ensures r.Target() == Some(field)
  {
    UnsetOp(field)
  }

  /** `inc(f)` and `dec(f)` are `inc(f, 1)` and `inc(f, -1)` with Integer
      amounts, whereas `dec(f, 1)` carries a Long: the two decrements by
      one are different operator values. */
  lemma DefaultAmounts(field: string)
    ensures Inc(field) == IncBy(field, JInteger(1))
    ensures Dec(field) == IncBy(field, JInteger(-1))
    ensures DecBy(field, JInteger(1)) == Success(IncBy(field, JLong(-1)))
    ensures DecBy(field, JLong(1)) == DecBy(field, JInteger(1))
    ensures Dec(field) != DecBy(field, JInteger(1)).value
  {
  }

  /** Decrementing by Long.MIN_VALUE increments by Long.MIN_VALUE. */
  lemma DecLongMinValue(field: string)
    ensures DecBy(field, JLong(LONG_MIN)) == Success(IncBy(field, JLong(LONG_MIN)))
  {
  }

  /** Decrementing by the amount a decrement produced increments by the
      original value, as a Long or a Double. */
  lemma DecTwiceRestores(field: string, value: Number)
    requires Decrementable(value)
    ensures var once := NegatedAmount(value);
            DecBy(field, once) ==
              Success(IncBy(field, if value.IsIntegral() then JLong(value.LongValue())
                                   else JDouble(value.DoubleValue())))
  {
    if value.IsFloating() {
      NegateDoubleInvolution(value.DoubleValue());
    } else {
      NegateLongInvolution(value.LongValue());
    }
  }

  /** For a finite floating-point argument the increment is its real
      negation; for an Integer it is its exact negation. */
  lemma DecNegatesExactly(field: string, value: Number)
    requires value.JInteger? || (value.IsFloating() && value.DoubleValue().IsFinite())
    ensures DecBy(field, value).Success?
    ensures var amount := DecBy(field, value).value.value.number;
            && (value.JInteger? ==> amount == JLong(-(value.intValue as int)))
            && (value.IsFloating() ==>
                  amount.JDouble? && amount.doubleValue.IsFinite()
                  && amount.doubleValue.RealValue() == -value.DoubleValue().RealValue())
  {
  }

  /** `push(f, x)` is `push(f, [x])`. */
  lemma PushWrapsSingleValue(field: string, value: Value)
    ensures Push(field, value) == PushAll(field, [value])
  {
  }

  /** The plain operators carry their tag, their field and their argument
      unchanged, and no two factories agree on a tag. */
  lemma OperatorTags(field: string, n: Number, v: Value, vs: seq<Value>)
    ensures IncBy(field, n) == Operator("$inc", field, Amount(n))
    ensures Max(field, n) == Operator("$max", field, Amount(n))
    ensures Min(field, n) == Operator("$min", field, Amount(n))
    ensures Set(field, v) == Operator("$set", field, Single(v))
    ensures PullAll(field, vs) == Operator("$pullAll", field, Many(vs))
    ensures |{INC, MAX, MIN, SET, PULL_ALL}| == 5
  {
    assert INC[1] == 'i' && MAX[2] == 'a' && MIN[2] == 'i' && SET[1] == 's' && PULL_ALL[1] == 'p';
  }

  /** `and`, `or` and `xor` build the same kind of operator and differ only
      in the sub-operation name. */
  lemma BitOperations(field: string, value: Int32)
    ensures And(field, value) == BitOp("and", field, value)
    ensures Or(field, value) == BitOp("or", field, value)
    ensures Xor(field, value) == BitOp("xor", field, value)
    ensures And(field, value) != Or(field, value) && Or(field, value) != Xor(field, value)
    ensures And(field, value) != Xor(field, value)
  {
    assert AND[0] == 'a' && OR[0] == 'o' && XOR[0] == 'x';
  }
}
