/** The factory API of UpdateOperators.java as data: one constructor per
    static overload. `Make` performs a call; `Recover` reads back, from an
    operator value, the canonical call that produces it. The two are
    inverse up to the overloads whose operator another overload also
    builds (`inc(f)`, `dec(f)`, `dec(f, v)`, `push(f, x)`). Operators are
    compared by their constructor arguments. */
module UpdateCalls {
  import opened Wrappers
  import opened JavaNumbers
  import opened Updates

  datatype FactoryCall =
    | AddToSetCall(field: string, value: Value)
    | AddToSetAllCall(field: string, values: seq<Value>)
    | AndCall(field: string, amount: Int32)
    | CurrentDateCall(field: string)
    | DecCall(field: string)
    | DecByCall(field: string, number: Number)
    | IncCall(field: string)
    | IncByCall(field: string, number: Number)
    | MaxCall(field: string, number: Number)
    | MinCall(field: string, number: Number)
    | OrCall(field: string, amount: Int32)
    | PopCall(field: string)
    | PullCall(field: string, filter: Filter)
    | PullAllCall(field: string, values: seq<Value>)
    | PushCall(field: string, value: Value)
    | PushAllCall(field: string, values: seq<Value>)
    | SetCall(field: string, value: Value)
    | SetEntityCall(value: Value)
    | SetOnInsertCall(entries: map<string, Value>)
    | UnsetCall(field: string)
    | XorCall(field: string, amount: Int32)
  {
    /** The calls whose operator another overload also builds: `inc(f)`,
        `dec(f)` and `dec(f, v)` call `inc(f, n)`, and `push(f, x)` builds
        the push operator `push(f, [x])` builds. */
    predicate Redundant() {
      IncCall? || DecCall? || DecByCall? || PushCall?
    }
  }

  /** Performs one factory call. Only `dec(field, Number)` can throw. */
  function Make(c: FactoryCall): (r: Result<UpdateOperator, ArgumentError>)
    ensures r.Failure? <==> c.DecByCall? && !Decrementable(c.number)
  {
    match c
    case AddToSetCall(f, v) => Success(AddToSet(f, v))
    case AddToSetAllCall(f, vs) => Success(AddToSetAll(f, vs))
    case AndCall(f, n) => Success(And(f, n))
    case CurrentDateCall(f) => Success(CurrentDate(f))
    case DecCall(f) => Success(Dec(f))
    case DecByCall(f, n) => DecBy(f, n)
    case IncCall(f) => Success(Inc(f))
    case IncByCall(f, n) => Success(IncBy(f, n))
    case MaxCall(f, n) => Success(Max(f, n))
    case MinCall(f, n) => Success(Min(f, n))
    case OrCall(f, n) => Success(Or(f, n))
    case PopCall(f) => Success(Pop(f))
    case PullCall(f, filter) => Success(Pull(f, filter))
    case PullAllCall(f, vs) => Success(PullAll(f, vs))
    case PushCall(f, v) => Success(Push(f, v))
    case PushAllCall(f, vs) => Success(PushAll(f, vs))
    case SetCall(f, v) => Success(Set(f, v))
    case SetEntityCall(v) => Success(SetEntity(v))
    case SetOnInsertCall(m) => Success(SetOnInsert(m))
    case UnsetCall(f) => Success(Unset(f))
    case XorCall(f, n) => Success(Xor(f, n))
  }

  /** The overload that builds the same operator as a redundant call;
      every other call is already canonical. */
  function Canonical(c: FactoryCall): (r: FactoryCall)
    requires !(c.DecByCall? && !Decrementable(c.number))
    ensures !r.Redundant()
    ensures !c.Redundant() ==> r == c
    ensures Make(r) == Make(c)
  {
    match c
    case IncCall(f) => IncByCall(f, JInteger(1))
    case DecCall(f) => IncByCall(f, JInteger(-1))
    case DecByCall(f, n) => IncByCall(f, NegatedAmount(n))
    case PushCall(f, v) => PushAllCall(f, [v])
    case _ => c
  }

  /** Reads back the canonical factory call that built `op`, if any. */
  function Recover(op: UpdateOperator): Option<FactoryCall> {
    match op
    case Operator(name, f, v) =>
      if name == INC && v.Amount? then Some(IncByCall(f, v.number))
      else if name == MAX && v.Amount? then Some(MaxCall(f, v.number))
      else if name == MIN && v.Amount? then Some(MinCall(f, v.number))
      else if name == SET && v.Single? then Some(SetCall(f, v.item))
      else if name == PULL_ALL && v.Many? then Some(PullAllCall(f, v.items))
      else None
    case AddToSetOp(f, v) =>
      if v.Single? then Some(AddToSetCall(f, v.item))
      else if v.Many? then Some(AddToSetAllCall(f, v.items))
      else None
    case BitOp(operation, f, n) =>
      if operation == AND then Some(AndCall(f, n))
      else if operation == OR then Some(OrCall(f, n))
      else if operation == XOR then Some(XorCall(f, n))
      else None
    case CurrentDateOp(f) => Some(CurrentDateCall(f))
    case PopOp(f) => Some(PopCall(f))
    case PullOp(f, filter) => Some(PullCall(f, filter))
    case PushOp(f, vs) => Some(PushAllCall(f, vs))
    case SetEntityOp(v) => Some(SetEntityCall(v))
    case SetOnInsertOp(m) => Some(SetOnInsertCall(m))
    case UnsetOp(f) => Some(UnsetCall(f))
  }

  /** Every operator a factory builds can be read back: the call recovered
      is the canonical form of the one made. */
  lemma RecoverInvertsMake(c: FactoryCall)
    requires Make(c).Success?
    ensures Recover(Make(c).value) == Some(Canonical(c))
  {
    assert INC != MAX && INC != MIN && INC != SET && INC != PULL_ALL by {
      assert INC[1] == 'i' && MAX[1] == 'm' && MIN[1] == 'm' && SET[1] == 's' && PULL_ALL[1] == 'p';
    }
    assert MAX != MIN && MAX != SET && MAX != PULL_ALL by {
      assert MAX[2] == 'a' && MIN[2] == 'i' && SET[1] == 's' && PULL_ALL[1] == 'p';
    }
    assert MIN != SET && MIN != PULL_ALL && SET != PULL_ALL by {
      assert MIN[1] == 'm' && SET[1] == 's' && PULL_ALL[1] == 'p';
    }
    assert AND != OR && AND != XOR && OR != XOR by {
      assert AND[0] == 'a' && OR[0] == 'o' && XOR[0] == 'x';
    }
  }

  /** Every recovered call rebuilds exactly the operator it was read from. */
  lemma MakeInvertsRecover(op: UpdateOperator)
    requires Recover(op).Some?
    ensures Make(Recover(op).value) == Success(op)
  {
  }

  /** Making a call and making its canonical form give the same operator. */
  lemma CanonicalMakesSameOperator(c: FactoryCall)
    requires Make(c).Success?
    ensures Make(Canonical(c)) == Make(c)
  {
  }

  /** Two calls build operators with the same constructor arguments exactly
      when their canonical forms are the same call. In particular
      `addToSet(f, x)` and `addToSet(f, [x])` are told apart, as their
      arguments are; whether the Java operators they build behave alike is
      not part of this model. */
  lemma SameOperatorIffSameCanonicalCall(c1: FactoryCall, c2: FactoryCall)
    requires Make(c1).Success? && Make(c2).Success?
    ensures Make(c1) == Make(c2) <==> Canonical(c1) == Canonical(c2)
  {
    RecoverInvertsMake(c1);
    RecoverInvertsMake(c2);
    CanonicalMakesSameOperator(c1);
    CanonicalMakesSameOperator(c2);
  }
}
