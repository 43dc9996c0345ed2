/** Structural comparison of JSON values (jobs.rs, json_values_equivalent) and the
    output oracle built on it (validate_stdout). */
module JsonValues {
  import opened Wrappers
  import opened JsonNumbers
  import opened ArtifactTypes

  /** serde_json::Value; object keys are unique, so an object is a map. */
  datatype Json =
    | Null
    | Bool(b: bool)
    | Num(n: Number)
    | Str(s: string)
    | Arr(items: seq<Json>)
    | Obj(fields: map<string, Json>)

  ghost predicate Valid(v: Json) {
    match v
    case Num(n) => WellFormed(n)
    case Arr(items) => forall x | x in items :: Valid(x)
    case Obj(fields) => forall k | k in fields :: Valid(fields[k])
    case _ => true
  }

  /** Every number in v keeps its exponent within 64 bits. */
  ghost predicate InRange(v: Json)
    requires Valid(v)
  {
    match v
    case Num(n) => FitsI64(n)
    case Arr(items) => forall x | x in items :: InRange(x)
    case Obj(fields) => forall k | k in fields :: InRange(fields[k])
    case _ => true
  }

  /** The object case looks only at the keys of one side, and at the two sizes. */
  predicate Equivalent(actual: Json, expected: Json)
    requires Valid(actual) && Valid(expected)
    decreases actual
  {
    match (actual, expected)
    case (Num(a), Num(e)) => NumbersEquivalent(a, e)
    case (Arr(a), Arr(e)) => |a| == |e| && forall i | 0 <= i < |a| :: Equivalent(a[i], e[i])
    case (Obj(a), Obj(e)) => |a| == |e| && forall k | k in a :: k in e && Equivalent(a[k], e[k])
    case (_, _) => actual == expected
  }

  // ---------------------------------------------------------------- denotation

  datatype Meaning =
    | MNull
    | MBool(b: bool)
    | MNumber(value: real)
    | MOverflow
    | MString(s: string)
    | MArray(items: seq<Meaning>)
    | MObject(fields: map<string, Meaning>)

  /** What a value denotes: numbers as exact reals, objects as finite maps; the numbers
      whose exponent overflows all denote one point. */
  ghost function Denote(v: Json): Meaning
    requires Valid(v)
  {
    match v
    case Null => MNull
    case Bool(b) => MBool(b)
    case Num(n) => if Normalised(n).Some? then MNumber(Value(n)) else MOverflow
    case Str(s) => MString(s)
    case Arr(items) => MArray(seq(|items|, i requires 0 <= i < |items| => Denote(items[i])))
    case Obj(fields) => MObject(map k | k in fields :: Denote(fields[k]))
  }

  lemma SameKeys<V>(a: map<string, V>, b: map<string, V>)
    requires |a| == |b| && forall k | k in a :: k in b
    ensures a.Keys == b.Keys
  {
    assert |b.Keys - a.Keys| == |b.Keys| - |a.Keys|;
    assert b.Keys == a.Keys + (b.Keys - a.Keys);
  }

  /** The comparison decides exactly equality of what the two values denote. */
  lemma {:induction false} EquivalentIsSameMeaning(a: Json, b: Json)
    requires Valid(a) && Valid(b)
    ensures Equivalent(a, b) <==> Denote(a) == Denote(b)
    decreases a
  {
    match (a, b)
    case (Num(m), Num(n)) => NumbersAgree(m, n);
    case (Arr(xs), Arr(ys)) => ArraysAgree(a, b);
    case (Obj(f), Obj(g)) => ObjectsAgree(a, b);
    case (_, _) =>
  }

  lemma NumbersAgree(m: Number, n: Number)
    requires WellFormed(m) && WellFormed(n)
    ensures NumbersEquivalent(m, n) <==> Denote(Num(m)) == Denote(Num(n))
  {
    NormalisesExactly(m);
    NormalisesExactly(n);
    NumbersEquivalentExactly(m, n);
  }

  lemma {:induction false} ArraysAgree(a: Json, b: Json)
    requires Valid(a) && Valid(b) && a.Arr? && b.Arr?
    ensures Equivalent(a, b) <==> Denote(a) == Denote(b)
    decreases a, 0
  {
    var xs, ys := a.items, b.items;
    var ds, es := Denote(a).items, Denote(b).items;
    if |xs| == |ys| {
      forall i | 0 <= i < |xs| ensures Equivalent(xs[i], ys[i]) <==> ds[i] == es[i] {
        assert xs[i] in xs && ys[i] in ys;
        EquivalentIsSameMeaning(xs[i], ys[i]);
      }
      assert ds == es <==> forall i | 0 <= i < |xs| :: ds[i] == es[i];
    } else {
      assert |ds| != |es|;
    }
  }

  lemma {:induction false} ObjectsAgree(a: Json, b: Json)
    requires Valid(a) && Valid(b) && a.Obj? && b.Obj?
    ensures Equivalent(a, b) <==> Denote(a) == Denote(b)
    decreases a, 0
  {
    var f, g := a.fields, b.fields;
    var d, e := Denote(a).fields, Denote(b).fields;
    forall k | k in f && k in g ensures Equivalent(f[k], g[k]) <==> d[k] == e[k] {
      EquivalentIsSameMeaning(f[k], g[k]);
    }
    assert d.Keys == f.Keys && e.Keys == g.Keys;
    if Equivalent(a, b) {
      SameKeys(f, g);
      assert d == e;
    }
    if d == e {
      assert |f| == |f.Keys| == |g.Keys| == |g|;
    }
  }

  /** Hence an equivalence relation, on all values and with no side condition. */
  lemma EquivalentIsEquivalence(a: Json, b: Json, c: Json)
    requires Valid(a) && Valid(b) && Valid(c)
    ensures Equivalent(a, a)
    ensures Equivalent(a, b) ==> Equivalent(b, a)
    ensures Equivalent(a, b) && Equivalent(b, c) ==> Equivalent(a, c)
  {
    EquivalentIsSameMeaning(a, a);
    EquivalentIsSameMeaning(a, b);
    EquivalentIsSameMeaning(b, a);
    EquivalentIsSameMeaning(b, c);
    EquivalentIsSameMeaning(a, c);
  }

  /** A meaning in which every number is an exact value. */
  ghost predicate Exact(m: Meaning) {
    match m
    case MOverflow => false
    case MArray(items) => forall x | x in items :: Exact(x)
    case MObject(fields) => forall k | k in fields :: Exact(fields[k])
    case _ => true
  }

  /** No two values are confused by overflow exactly when each keeps its exponents in range. */
  lemma {:induction false} InRangeIsExact(v: Json)
    requires Valid(v)
    ensures InRange(v) <==> Exact(Denote(v))
  {
    match v
    case Num(n) => NormalisesExactly(n);
    case Arr(items) =>
      forall i | 0 <= i < |items| ensures InRange(items[i]) <==> Exact(Denote(items[i])) {
        assert items[i] in items;
        InRangeIsExact(items[i]);
      }
      var ds := Denote(v).items;
      assert forall i | 0 <= i < |items| :: ds[i] == Denote(items[i]) && ds[i] in ds;
      assert forall x | x in ds :: exists i :: 0 <= i < |items| && x == ds[i];
    case Obj(fields) =>
      forall k | k in fields ensures InRange(fields[k]) <==> Exact(Denote(fields[k])) {
        InRangeIsExact(fields[k]);
      }
      var ds := Denote(v).fields;
      assert ds.Keys == fields.Keys && forall k | k in fields :: ds[k] == Denote(fields[k]);
    case _ =>
  }

  /** Every number has a text as 64-bit integers and floats are rendered. */
  ghost predicate Rendered(v: Json)
    requires Valid(v)
  {
    match v
    case Num(n) => Short(n)
    case Arr(items) => forall x | x in items :: Rendered(x)
    case Obj(fields) => forall k | k in fields :: Rendered(fields[k])
    case _ => true
  }

  lemma {:induction false} RenderedInRange(v: Json)
    requires Valid(v) && Rendered(v)
    ensures InRange(v)
  {
    match v
    case Num(n) => ShortFits(n);
    case Arr(items) => forall x | x in items ensures InRange(x) { RenderedInRange(x); }
    case Obj(fields) => forall k | k in fields ensures InRange(fields[k]) { RenderedInRange(fields[k]); }
    case _ =>
  }

  /** A reader that keeps numbers as 64-bit integers or floats yields only such values: on them
      the comparison is equality of exact meanings, and no overflow is ever met. */
  lemma RenderedCompareExactly(a: Json, b: Json)
    requires Valid(a) && Valid(b) && Rendered(a) && Rendered(b)
    ensures Exact(Denote(a)) && Exact(Denote(b))
    ensures Equivalent(a, b) <==> Denote(a) == Denote(b)
  {
    RenderedInRange(a);
    RenderedInRange(b);
    InRangeIsExact(a);
    InRangeIsExact(b);
    EquivalentIsSameMeaning(a, b);
  }

  // ---------------------------------------------------------------- the output oracle

  /** Why an output is refused. */
  datatype Mismatch = StdoutDiffers | ExpectedNotJson | ActualNotJson | JsonDiffers

  /** A reader of JSON text; what it returns is well formed. */
  type JsonReader = f: string -> Option<Json> | ReadsValid(f) witness (t: string) => None

  ghost predicate ReadsValid(f: string -> Option<Json>) {
    forall t :: f(t).Some? ==> Valid(f(t).value)
  }

  /** validate_stdout. */
  function ValidateStdout(parse: JsonReader, format: IoFormat, expectedExit: int,
                          expected: string, stdout: string): Option<Mismatch>
  {
    if format == TextFormat || expectedExit != 0 then
      if stdout != expected then Some(StdoutDiffers) else None
    else if parse(expected).None? then Some(ExpectedNotJson)
    else if parse(stdout).None? then Some(ActualNotJson)
    else if !Equivalent(parse(stdout).value, parse(expected).value) then Some(JsonDiffers)
    else None
  }

  /** Both texts are JSON, and they mean the same. */
  ghost predicate SameMeaning(parse: JsonReader, a: string, b: string) {
    parse(a).Some? && parse(b).Some? && Denote(parse(a).value) == Denote(parse(b).value)
  }

  /** What is expected of an output: the meaning for JSON where the run should succeed, and the
      very text otherwise. */
  ghost predicate Meets(parse: JsonReader, format: IoFormat, expectedExit: int, expected: string, stdout: string) {
    if format == JsonFormat && expectedExit == 0 then SameMeaning(parse, expected, stdout) else stdout == expected
  }

  /** An output is accepted exactly when it meets the expectation, and each refusal names its
      reason. */
  lemma OutputAcceptedExactly(parse: JsonReader, format: IoFormat, expectedExit: int, expected: string, stdout: string)
    ensures var refusal := ValidateStdout(parse, format, expectedExit, expected, stdout);
            var json := format == JsonFormat && expectedExit == 0;
            && (refusal.None? <==> Meets(parse, format, expectedExit, expected, stdout))
            && (refusal == Some(StdoutDiffers) <==> !json && stdout != expected)
            && (refusal == Some(ExpectedNotJson) <==> json && parse(expected).None?)
            && (refusal == Some(ActualNotJson) <==> json && parse(expected).Some? && parse(stdout).None?)
            && (refusal == Some(JsonDiffers) <==> json && parse(expected).Some? && parse(stdout).Some? &&
                                                  Denote(parse(expected).value) != Denote(parse(stdout).value))
  {
    if parse(expected).Some? && parse(stdout).Some? { EquivalentIsSameMeaning(parse(stdout).value, parse(expected).value); }
  }

  /** Outputs accepted against one expectation are interchangeable: each would be accepted as
      the expectation of the other. */
  lemma AcceptedOutputsInterchange(parse: JsonReader, format: IoFormat, expectedExit: int,
                                   expected: string, a: string, b: string)
    requires ValidateStdout(parse, format, expectedExit, expected, a).None?
    requires ValidateStdout(parse, format, expectedExit, expected, b).None?
    ensures ValidateStdout(parse, format, expectedExit, a, b).None?
  {
    if format == JsonFormat && expectedExit == 0 {
      var x, y, e := parse(a).value, parse(b).value, parse(expected).value;
      EquivalentIsEquivalence(x, e, x);
      EquivalentIsEquivalence(y, e, x);
    }
  }
}
