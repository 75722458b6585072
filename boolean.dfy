/**
 The boolean schema kind: the coercion transform its constructor registers,
 its base type check, and the `isTrue` / `isFalse` narrowing tests.
 */
module Boolean {
  import opened JsValue
  import opened CaseFold

  // ---------------------------------------------------------------------------
  // Base type check
  // ---------------------------------------------------------------------------

  /** `_typeCheck`: a boxed `Boolean` is unwrapped, then the value must be a primitive boolean. */
  function TypeCheck(v: Value): (r: bool)
    ensures r <==> v.Bool? || v.BoxedBool?
  {
    var unwrapped := if v.BoxedBool? then Bool(v.primitive) else v;
    unwrapped.Bool?
  }

  // ---------------------------------------------------------------------------
  // The coercion patterns
  // ---------------------------------------------------------------------------

  /** `/^(true|1)$/i.test(s)` */
  predicate MatchesTruePattern(s: string) {
    MatchesIgnoringCase(s, "true") || MatchesIgnoringCase(s, "1")
  }

  /** `/^(false|0)$/i.test(s)` */
  predicate MatchesFalsePattern(s: string) {
    MatchesIgnoringCase(s, "false") || MatchesIgnoringCase(s, "0")
  }

  /** The strings the true pattern accepts, spelled out: "1", or "true" in any mix of cases. */
  predicate SpelledTrue(s: string) {
    || s == "1"
    || (|s| == 4 && s[0] in "tT" && s[1] in "rR" && s[2] in "uU" && s[3] in "eE")
  }

  /** The strings the false pattern accepts, spelled out: "0", or "false" in any mix of cases. */
  predicate SpelledFalse(s: string) {
    || s == "0"
    || (|s| == 5 && s[0] in "fF" && s[1] in "aA" && s[2] in "lL" && s[3] in "sS" && s[4] in "eE")
  }

  lemma {:induction false} TruePatternSpelled(s: string)
    ensures MatchesTruePattern(s) <==> SpelledTrue(s)
  {
    MatchesCharwise(s, "true");
    MatchesCharwise(s, "1");
    if |s| == 4 {
      UpperCharLetter(s[0], 't');
      UpperCharLetter(s[1], 'r');
      UpperCharLetter(s[2], 'u');
      UpperCharLetter(s[3], 'e');
    }
    if |s| == 1 {
      UpperCharDigit(s[0], '1');
    }
  }

  lemma {:induction false} FalsePatternSpelled(s: string)
    ensures MatchesFalsePattern(s) <==> SpelledFalse(s)
  {
    MatchesCharwise(s, "false");
    MatchesCharwise(s, "0");
    if |s| == 5 {
      UpperCharLetter(s[0], 'f');
      UpperCharLetter(s[1], 'a');
      UpperCharLetter(s[2], 'l');
      UpperCharLetter(s[3], 's');
      UpperCharLetter(s[4], 'e');
    }
    if |s| == 1 {
      UpperCharDigit(s[0], '0');
    }
  }

  /** No string matches both patterns. */
  lemma PatternsDisjoint(s: string)
    ensures !(MatchesTruePattern(s) && MatchesFalsePattern(s))
  {
    TruePatternSpelled(s);
    FalsePatternSpelled(s);
  }

  // ---------------------------------------------------------------------------
  // Which values the transform turns into booleans, by the kind of value
  // ---------------------------------------------------------------------------

  /** A value the transform turns into `true`, described without `String()` or pattern matching. */
  predicate TrueToken(v: Value) {
    match v
    case Str(s) => SpelledTrue(s)
    case Int(n) => n == 1
    case Other(r) => SpelledTrue(r)
    case _ => false
  }

  /** A value the transform turns into `false`, described without `String()` or pattern matching. */
  predicate FalseToken(v: Value) {
    match v
    case Str(s) => SpelledFalse(s)
    case Int(n) => n == 0
    case Other(r) => SpelledFalse(r)
    case _ => false
  }

  /** The only integers whose decimal form matches a pattern are 1 and 0. */
  lemma {:induction false} DecimalSpelled(n: int)
    ensures SpelledTrue(Decimal(n)) <==> n == 1
    ensures SpelledFalse(Decimal(n)) <==> n == 0
  {
    DecimalShape(n);
    var d := Decimal(n);
    assert IsDigit(d[0]) || d[0] == '-';
    if 0 <= n < 10 {
      assert d == [DigitChar(n)];
    }
  }

  /** For a value that fails the type check, `String(value)` matches a pattern exactly on the tokens. */
  lemma {:induction false} StringFormTokens(v: Value)
    ensures !TypeCheck(v) ==> (MatchesTruePattern(ToJsString(v)) <==> TrueToken(v))
    ensures !TypeCheck(v) ==> (MatchesFalsePattern(ToJsString(v)) <==> FalseToken(v))
  {
    TruePatternSpelled(ToJsString(v));
    FalsePatternSpelled(ToJsString(v));
    if v.Int? {
      DecimalSpelled(v.n);
    }
  }

  // ---------------------------------------------------------------------------
  // The coercion transform
  // ---------------------------------------------------------------------------

  /** The transform the constructor registers, with the schema's `isType` as a parameter:
      a value that is not already of the type is coerced by matching its string form. */
  function Transform(isType: Value -> bool, value: Value): Value {
    if !isType(value) then
      if MatchesTruePattern(ToJsString(value)) then Bool(true)
      else if MatchesFalsePattern(ToJsString(value)) then Bool(false)
      else value
    else value
  }

  /** The transform guarded by the boolean type check. */
  function Coerce(v: Value): (r: Value)
    ensures TypeCheck(v) ==> r == v
    ensures TrueToken(v) ==> r == Bool(true)
    ensures FalseToken(v) ==> r == Bool(false)
    ensures !TrueToken(v) && !FalseToken(v) ==> r == v
  {
    StringFormTokens(v);
    Transform(TypeCheck, v)
  }

  /** `isType` may additionally accept `null` or `undefined` (nullable or optional schemas);
      since neither "null" nor "undefined" matches a pattern, the transform does not change. */
  lemma TransformIgnoresAbsentPolicy(isType: Value -> bool)
    ensures (forall u :: !IsAbsent(u) ==> isType(u) == TypeCheck(u)) ==>
              forall v :: Transform(isType, v) == Coerce(v)
  {
    if forall u :: !IsAbsent(u) ==> isType(u) == TypeCheck(u) {
      forall v ensures Transform(isType, v) == Coerce(v) {
        StringFormTokens(v);
      }
    }
  }

  /** Coercing twice is the same as coercing once. */
  lemma CoerceIdempotent(v: Value)
    ensures Coerce(Coerce(v)) == Coerce(v)
  {
  }

  /** The coerced value passes the type check exactly when the input did or was a token. */
  lemma CoerceOutputTyped(v: Value)
    ensures TypeCheck(Coerce(v)) <==> TypeCheck(v) || TrueToken(v) || FalseToken(v)
  {
  }

  /** The transform never produces an absent value from a present one, nor the reverse. */
  lemma CoercePreservesAbsence(v: Value)
    ensures IsAbsent(Coerce(v)) <==> IsAbsent(v)
  {
  }

  /** Examples of values the transform coerces. */
  lemma CoerceExamplesCoerced()
    ensures Coerce(Str("TRUE")) == Bool(true) && Coerce(Str("True")) == Bool(true)
    ensures Coerce(Str("1")) == Bool(true) && Coerce(Int(1)) == Bool(true) && Coerce(Other("1")) == Bool(true)
    ensures Coerce(Str("fAlSe")) == Bool(false) && Coerce(Int(0)) == Bool(false)
  {
    assert TrueToken(Str("TRUE")) && TrueToken(Str("True"));
    assert FalseToken(Str("fAlSe"));
  }

  /** Examples of values the transform passes through untouched: the patterns are anchored,
      nothing is trimmed, and a boxed boolean is not unwrapped. */
  lemma CoerceExamplesUntouched()
    ensures Coerce(Str(" true")) == Str(" true") && Coerce(Str("true\n")) == Str("true\n")
    ensures Coerce(Str("yes")) == Str("yes") && Coerce(Str("10")) == Str("10")
    ensures Coerce(Int(10)) == Int(10) && Coerce(Int(-1)) == Int(-1)
    ensures Coerce(Null) == Null && Coerce(Undefined) == Undefined
    ensures Coerce(BoxedBool(true)) == BoxedBool(true) && Coerce(BoxedBool(false)) == BoxedBool(false)
  {
    assert !TrueToken(Str(" true")) && !FalseToken(Str(" true"));
    assert !TrueToken(Str("true\n")) && !FalseToken(Str("true\n"));
    assert !TrueToken(Str("yes")) && !FalseToken(Str("yes"));
    assert !TrueToken(Str("10")) && !FalseToken(Str("10"));
  }

  // ---------------------------------------------------------------------------
  // Construction
  // ---------------------------------------------------------------------------

  /** The part of a schema the boolean constructor sets up: its type tag and its transforms. */
  datatype Schema = Schema(typeTag: string, transforms: seq<Value -> Value>)

  /** `new BooleanSchema()`: type "boolean" and the coercion transform as its only transform. */
  function Create(isType: Value -> bool): (s: Schema)
    ensures s.typeTag == "boolean" && |s.transforms| == 1
    ensures (forall u :: !IsAbsent(u) ==> isType(u) == TypeCheck(u)) ==>
              forall v :: s.transforms[0](v) == Coerce(v)
  {
    TransformIgnoresAbsentPolicy(isType);
    Schema("boolean", [value => Transform(isType, value)])
  }

  // ---------------------------------------------------------------------------
  // The isTrue / isFalse tests
  // ---------------------------------------------------------------------------

  /** A test's message: the locale's `isValue` text, or one the caller gives. */
  datatype Message = LocaleIsValue | Text(template: string)

  /** What `isTrue` / `isFalse` pass to `test(...)`. */
  datatype TestDescriptor = TestDescriptor(
    name: string,
    message: Message,
    exclusive: bool,
    params: map<string, string>,
    test: Value -> bool)

  /** The predicate of `isTrue`: absent, or the primitive `true`. */
  predicate IsTrueTest(value: Value) {
    IsAbsent(value) || value == Bool(true)
  }

  /** The predicate of `isFalse`: absent, or the primitive `false`. */
  predicate IsFalseTest(value: Value) {
    IsAbsent(value) || value == Bool(false)
  }

  function IsTrue(message: Message := LocaleIsValue): (d: TestDescriptor)
    ensures d.name == "is-value" && d.exclusive && d.message == message
    ensures d.params == map["value" := "true"]
    ensures forall v :: d.test(v) <==> IsAbsent(v) || v == Bool(true)
  {
    TestDescriptor("is-value", message, true, map["value" := "true"], IsTrueTest)
  }

  function IsFalse(message: Message := LocaleIsValue): (d: TestDescriptor)
    ensures d.name == "is-value" && d.exclusive && d.message == message
    ensures d.params == map["value" := "false"]
    ensures forall v :: d.test(v) <==> IsAbsent(v) || v == Bool(false)
  {
    TestDescriptor("is-value", message, true, map["value" := "false"], IsFalseTest)
  }

  /** The two descriptors share name, exclusivity and message (so one replaces the other
      when registered); they differ in params and in the predicate only on the two booleans. */
  lemma IsValueDescriptorsDiffer(message: Message)
    ensures IsTrue(message).name == IsFalse(message).name
    ensures IsTrue(message).exclusive && IsFalse(message).exclusive
    ensures IsTrue(message).message == IsFalse(message).message
    ensures IsTrue(message).params != IsFalse(message).params
    ensures forall v :: IsTrue(message).test(v) != IsFalse(message).test(v) <==> v == Bool(true) || v == Bool(false)
    ensures IsTrue().message == LocaleIsValue && IsFalse().message == LocaleIsValue
  {
    assert IsTrue(message).params["value"] == "true";
  }

  /** Only absent values satisfy both tests. */
  lemma IsValueOverlap(v: Value)
    ensures IsTrueTest(v) && IsFalseTest(v) <==> IsAbsent(v)
  {
  }

  /** Strict equality: a boxed boolean satisfies neither test. */
  lemma IsValueRejectsBoxed(b: bool)
    ensures !IsTrueTest(BoxedBool(b)) && !IsFalseTest(BoxedBool(b))
  {
  }

  /** After coercion, the `isTrue` test accepts exactly absent input, `true` and the true tokens;
      the `isFalse` test exactly absent input, `false` and the false tokens. */
  lemma CoercedIsValue(v: Value)
    ensures IsTrueTest(Coerce(v)) <==> IsAbsent(v) || v == Bool(true) || TrueToken(v)
    ensures IsFalseTest(Coerce(v)) <==> IsAbsent(v) || v == Bool(false) || FalseToken(v)
  {
  }
}
