/**
 * The schema combinators the wire protocol is written in, and an interpreter
 * giving each one the meaning the schema library gives it when it parses an
 * untrusted value: numbers with min/max/gt/int checks, strings with a minimum
 * length, literals, enums, tuples, arrays, string-keyed records, optional,
 * nullable and defaulted values, ordered unions and objects with three
 * unknown-key modes.
 */
module Zod {
  import opened Wrappers
  import opened Json

  /** One refinement on a number schema. */
  datatype NumCheck = Min(bound: real) | Max(bound: real) | Gt(bound: real) | Int

  predicate IsInteger(x: real) {
    x == x.Floor as real
  }

  predicate Holds(c: NumCheck, x: real) {
    match c
    case Min(b) => x >= b
    case Max(b) => x <= b
    case Gt(b) => x > b
    case Int => IsInteger(x)
  }

  /**
   * What an object schema does with keys its shape does not list: drop them
   * (the plain object), reject them (`.strict()`), or keep them unchanged
   * (`.catchall(z.unknown())`, the only catch-all the protocol uses).
   */
  datatype UnknownKeys = Strip | Strict | Catchall

  datatype Schema =
    | SNumber(checks: seq<NumCheck>)
    | SString(minLength: nat)
    | SBoolean
    | SLiteral(literal: string)
    | SEnum(options: seq<string>)
    | STuple(items: seq<Schema>)
    | SArray(element: Schema)
    | SRecord(valueSchema: Schema)
    | SOptional(inner: Schema)
    | SNullable(inner: Schema)
    | SDefault(inner: Schema, defaultValue: Json)
    | SUnion(arms: seq<Schema>)
    | SObject(shape: map<string, Schema>, unknownKeys: UnknownKeys)
    | SUnknown

  /** Why a value was rejected (the library's issue list is not modelled). */
  datatype Issue =
    | InvalidType | CheckFailed | InvalidLiteral | InvalidEnum | WrongLength
    | InvalidElement | InvalidField | UnrecognizedKeys | NoMatchingArm | Required

  datatype Result<+T> = Ok(value: T) | Err(issue: Issue)

  predicate AllOk(rs: seq<Result<Json>>) {
    forall i | 0 <= i < |rs| :: rs[i].Ok?
  }

  /** The array of the element results, or a rejection if any element failed. */
  function Collect(rs: seq<Result<Json>>): (r: Result<Json>)
    ensures r.Ok? <==> AllOk(rs)
    ensures r.Ok? ==> (r.value.JArr? && |r.value.items| == |rs|
                       && forall i | 0 <= i < |rs| :: r.value.items[i] == rs[i].value)
  {
    if AllOk(rs) then Ok(JArr(seq(|rs|, i requires 0 <= i < |rs| && AllOk(rs) => rs[i].value)))
    else Err(InvalidElement)
  }

  /** The object an object schema outputs once every listed field parsed. */
  function ObjectOutput(shape: map<string, Schema>, mode: UnknownKeys, m: map<string, Json>,
                        rs: map<string, Result<Option<Json>>>): map<string, Json>
  {
    (if mode == Catchall then map k | k in m && k !in shape :: m[k] else map[])
    + (map k | k in rs && rs[k].Ok? && rs[k].value.Some? :: rs[k].value.value)
  }

  /** Parse a value that is present (not `undefined`). */
  function Validate(s: Schema, j: Json): (r: Result<Json>)
    ensures r.Ok? && (s.SNumber? || s.SString? || s.SBoolean? || s.SLiteral? || s.SEnum?) ==> r.value == j
    ensures r.Ok? && (s.STuple? || s.SArray?) ==> j.JArr? && r.value.JArr? && |r.value.items| == |j.items|
    ensures r.Ok? && (s.SRecord? || s.SObject?) ==> j.JObj? && r.value.JObj?
    decreases s, 1
  {
    match s
    case SNumber(checks) =>
      if !j.JNum? then Err(InvalidType)
      else if forall i | 0 <= i < |checks| :: Holds(checks[i], j.n) then Ok(j)
      else Err(CheckFailed)
    case SString(minLength) =>
      if !j.JStr? then Err(InvalidType)
      else if |j.s| >= minLength then Ok(j)
      else Err(CheckFailed)
    case SBoolean =>
      if j.JBool? then Ok(j) else Err(InvalidType)
    case SLiteral(lit) =>
      if j == JStr(lit) then Ok(j) else Err(InvalidLiteral)
    case SEnum(options) =>
      if j.JStr? && j.s in options then Ok(j) else Err(InvalidEnum)
    case STuple(items) =>
      if !j.JArr? then Err(InvalidType)
      else if |j.items| != |items| then Err(WrongLength)
      else Collect(seq(|items|, i requires 0 <= i < |items| && i < |j.items| => Validate(items[i], j.items[i])))
    case SArray(element) =>
      if !j.JArr? then Err(InvalidType)
      else Collect(seq(|j.items|, i requires 0 <= i < |j.items| => Validate(element, j.items[i])))
    case SRecord(valueSchema) =>
      if !j.JObj? then Err(InvalidType)
      else
        var rs := map k | k in j.fields :: Validate(valueSchema, j.fields[k]);
        if exists k | k in rs :: rs[k].Err? then Err(InvalidField)
        else Ok(JObj(map k | k in rs && rs[k].Ok? :: rs[k].value))
    case SOptional(inner) => Validate(inner, j)
    case SNullable(inner) => if j == JNull then Ok(JNull) else Validate(inner, j)
    case SDefault(inner, _) => Validate(inner, j)
    case SUnion(_) => ValidateArms(s, 0, j)
    case SObject(shape, mode) =>
      if !j.JObj? then Err(InvalidType)
      else
        var rs := map k | k in shape :: ParseField(shape[k], Get(j.fields, k));
        if exists k | k in rs :: rs[k].Err? then Err(InvalidField)
        else if mode == Strict && exists k | k in j.fields :: k !in shape then Err(UnrecognizedKeys)
        else Ok(JObj(ObjectOutput(shape, mode, j.fields, rs)))
    case SUnknown => Ok(j)
  }

  /** Parse `undefined`: `None` in the result means the output stays `undefined`. */
  function ValidateMissing(s: Schema): Result<Option<Json>>
    decreases s, 1
  {
    match s
    case SOptional(_) => Ok(None)
    case SNullable(inner) => ValidateMissing(inner)
    case SDefault(inner, d) =>
      (match Validate(inner, d)
       case Ok(v) => Ok(Some(v))
       case Err(e) => Err(e))
    case SUnion(_) => MissingArms(s, 0)
    case SUnknown => Ok(None)
    case _ => Err(Required)
  }

  /** Parse an object property that may be absent. */
  function ParseField(s: Schema, v: Option<Json>): Result<Option<Json>>
    decreases s, 2
  {
    match v
    case None => ValidateMissing(s)
    case Some(j) =>
      (match Validate(s, j)
       case Ok(x) => Ok(Some(x))
       case Err(e) => Err(e))
  }

  /** The first union arm, from index `i` on, that accepts `j`. */
  function ValidateArms(s: Schema, i: nat, j: Json): Result<Json>
    requires s.SUnion? && i <= |s.arms|
    decreases s, 0, |s.arms| - i
  {
    if i == |s.arms| then Err(NoMatchingArm)
    else
      match Validate(s.arms[i], j)
      case Ok(v) => Ok(v)
      case Err(_) => ValidateArms(s, i + 1, j)
  }

  /** The first union arm, from index `i` on, that accepts `undefined`. */
  function MissingArms(s: Schema, i: nat): Result<Option<Json>>
    requires s.SUnion? && i <= |s.arms|
    decreases s, 0, |s.arms| - i
  {
    if i == |s.arms| then Err(NoMatchingArm)
    else
      match ValidateMissing(s.arms[i])
      case Ok(v) => Ok(v)
      case Err(_) => MissingArms(s, i + 1)
  }

  // ---------------------------------------------------------------------
  // Objects

  /** An object schema accepts exactly the objects whose listed fields all parse and, when strict, that carry no other key. */
  lemma ObjectAccepts(shape: map<string, Schema>, mode: UnknownKeys, m: map<string, Json>)
    ensures Validate(SObject(shape, mode), JObj(m)).Ok? <==>
      (&& (forall k | k in shape :: ParseField(shape[k], Get(m, k)).Ok?)
       && (mode == Strict ==> forall k | k in m :: k in shape))
  {
    var rs := map k | k in shape :: ParseField(shape[k], Get(m, k));
    if !(forall k | k in shape :: ParseField(shape[k], Get(m, k)).Ok?) {
      var k :| k in shape && !ParseField(shape[k], Get(m, k)).Ok?;
      assert rs[k].Err?;
    }
  }

  /** What an accepted object holds: each listed field's parse result (absent when it parsed to `undefined`), and the unlisted keys only under a catch-all. */
  lemma ObjectOutputKeys(shape: map<string, Schema>, mode: UnknownKeys, m: map<string, Json>, out: map<string, Json>)
    requires Validate(SObject(shape, mode), JObj(m)) == Ok(JObj(out))
    ensures forall k | k in shape :: ParseField(shape[k], Get(m, k)).Ok?
    ensures forall k | k in shape ::
      (k in out <==> ParseField(shape[k], Get(m, k)).value.Some?)
      && (k in out ==> out[k] == ParseField(shape[k], Get(m, k)).value.value)
    ensures forall k | k in out && k !in shape :: mode == Catchall && k in m && out[k] == m[k]
    ensures mode == Catchall ==> forall k | k in m && k !in shape :: k in out
  {
    ObjectAccepts(shape, mode, m);
  }

  /** A listed field with a default that is missing from the input is present in the output, as the default parsed. */
  lemma DefaultFieldMissing(shape: map<string, Schema>, mode: UnknownKeys, m: map<string, Json>, out: map<string, Json>, k: string)
    requires Validate(SObject(shape, mode), JObj(m)) == Ok(JObj(out))
    requires k in shape && shape[k].SDefault? && k !in m
    ensures Validate(shape[k].inner, shape[k].defaultValue).Ok?
    ensures k in out && out[k] == Validate(shape[k].inner, shape[k].defaultValue).value
  {
    ObjectOutputKeys(shape, mode, m, out);
    assert Get(m, k) == None;
    assert ParseField(shape[k], Get(m, k)).Ok?;
    assert ParseField(shape[k], Get(m, k)) == ValidateMissing(shape[k]);
  }

  /** A tuple accepts an array of its length exactly when every item is accepted by its position's schema. */
  lemma TupleAccepts(items: seq<Schema>, v: Json)
    requires v.JArr? && |v.items| == |items|
    ensures Validate(STuple(items), v).Ok? <==> forall i | 0 <= i < |items| :: Validate(items[i], v.items[i]).Ok?
    ensures Validate(STuple(items), v).Ok? ==>
      Validate(STuple(items), v).value.JArr? && |Validate(STuple(items), v).value.items| == |items|
      && forall i | 0 <= i < |items| :: Validate(STuple(items), v).value.items[i] == Validate(items[i], v.items[i]).value
  {
    var rs := seq(|items|, i requires 0 <= i < |items| && i < |v.items| => Validate(items[i], v.items[i]));
    assert Validate(STuple(items), v) == Collect(rs);
    assert forall i | 0 <= i < |items| :: rs[i] == Validate(items[i], v.items[i]);
  }

  /** An array accepts exactly the arrays whose every element the element schema accepts. */
  lemma ArrayAccepts(element: Schema, v: Json)
    requires v.JArr?
    ensures Validate(SArray(element), v).Ok? <==> forall i | 0 <= i < |v.items| :: Validate(element, v.items[i]).Ok?
    ensures Validate(SArray(element), v).Ok? ==>
      Validate(SArray(element), v).value.JArr? && |Validate(SArray(element), v).value.items| == |v.items|
      && forall i | 0 <= i < |v.items| :: Validate(SArray(element), v).value.items[i] == Validate(element, v.items[i]).value
  {
    var rs := seq(|v.items|, i requires 0 <= i < |v.items| => Validate(element, v.items[i]));
    assert Validate(SArray(element), v) == Collect(rs);
    assert forall i | 0 <= i < |v.items| :: rs[i] == Validate(element, v.items[i]);
  }

  /** A stripping object schema whose fields are all optional reads an object with none of them as `{}`. */
  lemma AllOptionalAbsent(shape: map<string, Schema>, m: map<string, Json>)
    requires forall k | k in shape :: shape[k].SOptional? && k !in m
    ensures Validate(SObject(shape, Strip), JObj(m)) == Ok(JObj(map[]))
  {
    var rs := map k | k in shape :: ParseField(shape[k], Get(m, k));
    forall k | k in shape ensures ParseField(shape[k], Get(m, k)) == Ok(None) {
      assert Get(m, k) == None;
    }
    assert ObjectOutput(shape, Strip, m, rs) == map[];
  }

  /** Replacing one listed field of an accepted object by a value that field accepts keeps the object accepted. */
  lemma {:induction false} ObjectUpdateKeepsValid(shape: map<string, Schema>, mode: UnknownKeys, m: map<string, Json>, k: string, v: Json)
    requires Validate(SObject(shape, mode), JObj(m)).Ok?
    requires k in shape && Validate(shape[k], v).Ok?
    ensures Validate(SObject(shape, mode), JObj(m[k := v])).Ok?
  {
    ObjectAccepts(shape, mode, m);
    forall k' | k' in shape
      ensures ParseField(shape[k'], Get(m[k := v], k')).Ok?
    {
      if k' != k {
        assert Get(m[k := v], k') == Get(m, k');
      }
    }
    ObjectAccepts(shape, mode, m[k := v]);
  }

  // ---------------------------------------------------------------------
  // Unions: arms are tried in order and the first that accepts wins

  lemma {:induction false} ArmsAllFail(s: Schema, i: nat, j: Json)
    requires s.SUnion? && i <= |s.arms|
    requires forall x | i <= x < |s.arms| :: Validate(s.arms[x], j).Err?
    ensures ValidateArms(s, i, j) == Err(NoMatchingArm)
    decreases |s.arms| - i
  {
    if i < |s.arms| {
      ArmsAllFail(s, i + 1, j);
    }
  }

  lemma {:induction false} ArmsFirst(s: Schema, i: nat, j: Json, k: nat)
    requires s.SUnion? && i <= k < |s.arms|
    requires Validate(s.arms[k], j).Ok?
    requires forall x | i <= x < k :: Validate(s.arms[x], j).Err?
    ensures ValidateArms(s, i, j) == Validate(s.arms[k], j)
    decreases k - i
  {
    if i < k {
      ArmsFirst(s, i + 1, j, k);
    }
  }

  /** A union returns what its first accepting arm returns. */
  lemma UnionFirstAccepting(arms: seq<Schema>, j: Json, k: nat)
    requires k < |arms| && Validate(arms[k], j).Ok?
    requires forall x | 0 <= x < k :: Validate(arms[x], j).Err?
    ensures Validate(SUnion(arms), j) == Validate(arms[k], j)
  {
    ArmsFirst(SUnion(arms), 0, j, k);
  }

  /** A union rejects what every arm rejects. */
  lemma UnionNoneAccepting(arms: seq<Schema>, j: Json)
    requires forall x | 0 <= x < |arms| :: Validate(arms[x], j).Err?
    ensures Validate(SUnion(arms), j).Err?
  {
    ArmsAllFail(SUnion(arms), 0, j);
  }

  /** A union of object schemas accepts only objects. */
  lemma ObjectUnionNeedsObject(arms: seq<Schema>, j: Json)
    requires forall x | 0 <= x < |arms| :: arms[x].SObject?
    ensures Validate(SUnion(arms), j).Ok? ==> j.JObj?
  {
    if !j.JObj? {
      UnionNoneAccepting(arms, j);
    }
  }

  /** When every other arm rejects `j`, the union decides as arm `k` does. */
  lemma UnionOnlyCandidate(arms: seq<Schema>, j: Json, k: nat)
    requires k < |arms|
    requires forall x | 0 <= x < |arms| && x != k :: Validate(arms[x], j).Err?
    ensures Validate(SUnion(arms), j).Ok? <==> Validate(arms[k], j).Ok?
    ensures Validate(arms[k], j).Ok? ==> Validate(SUnion(arms), j) == Validate(arms[k], j)
  {
    if Validate(arms[k], j).Ok? {
      UnionFirstAccepting(arms, j, k);
    } else {
      UnionNoneAccepting(arms, j);
    }
  }
}
