/**
 * The visual-preset parameters carried by a share link: each value in
 * hundredths, clamped to the range of its slider.
 */
module ShareStyles {
  import opened Numbers
  import opened Options
  import opened ShareText

  const SP: string := "sp"

  datatype Key =
    | Pixelation | Distortion | Instability | Gain | Bloom | ScanlineStr | Sensitivity | Mode | Palette
    | Saturation | EdgeThick | ContrastAmt | GrainAmt | VignetteAmt | Density | Wind

  datatype Style = Retro | Surveillance | Thermal | Anime | Noir | Snow | Unregistered(name: string)

  datatype ParamSpec = ParamSpec(key: Key, token: string, min: int, max: int)

  function Registry(style: Style): Option<seq<ParamSpec>> {
    match style
    case Retro => Some([ParamSpec(Pixelation, "p", 1, 10), ParamSpec(Distortion, "d", 0, 1),
                        ParamSpec(Instability, "i", 0, 1)])
    case Surveillance => Some([ParamSpec(Gain, "g", 0, 1), ParamSpec(Bloom, "b", 0, 1),
                               ParamSpec(ScanlineStr, "s", 0, 1), ParamSpec(Pixelation, "p", 1, 6)])
    case Thermal => Some([ParamSpec(Sensitivity, "s", 0, 1), ParamSpec(Bloom, "b", 0, 1), ParamSpec(Mode, "m", 0, 1),
                          ParamSpec(Pixelation, "p", 1, 6), ParamSpec(Palette, "a", 0, 1)])
    case Anime => Some([ParamSpec(Saturation, "s", 0, 2), ParamSpec(EdgeThick, "e", 0, 1)])
    case Noir => Some([ParamSpec(ContrastAmt, "c", 0, 2), ParamSpec(GrainAmt, "g", 0, 1),
                       ParamSpec(VignetteAmt, "v", 0, 1)])
    case Snow => Some([ParamSpec(Density, "d", 0, 1), ParamSpec(Wind, "w", 0, 1)])
    case Unregistered(_) => None
  }

  /** What the codec needs of a preset's registry. */
  ghost predicate RegistryOk(specs: seq<ParamSpec>) {
    && (forall i, j :: 0 <= i < j < |specs| ==> specs[i].token != specs[j].token && specs[i].key != specs[j].key)
    && (forall s <- specs :: |s.token| == 1 && 'a' <= s.token[0] <= 'z' && s.min <= s.max)
  }

  lemma SurveillanceIsOk()
    ensures RegistryOk(Registry(Surveillance).value)
  {
  }

  lemma ThermalIsOk()
    ensures RegistryOk(Registry(Thermal).value)
  {
    var specs := Registry(Thermal).value;
    forall i, j | 0 <= i < j < |specs|
      ensures specs[i].token != specs[j].token && specs[i].key != specs[j].key
    {
      assert specs[i].key.Sensitivity? <==> i == 0;
      assert specs[i].key.Bloom? <==> i == 1;
      assert specs[i].key.Mode? <==> i == 2;
      assert specs[i].key.Pixelation? <==> i == 3;
    }
  }

  lemma RegistriesAreOk(style: Style)
    ensures Registry(style).Some? ==> RegistryOk(Registry(style).value)
  {
    if style == Surveillance {
      SurveillanceIsOk();
    } else if style == Thermal {
      ThermalIsOk();
    }
  }

  // ------------------------------------------------------------------- rounding

  function Clamp(x: real, spec: ParamSpec): real {
    var capped := if x < spec.max as real then x else spec.max as real;
    if capped < spec.min as real then spec.min as real else capped
  }

  /** The stored number: hundredths of the clamped value. */
  function Hundredths(x: real, spec: ParamSpec): int {
    Round(Clamp(x, spec) * 100.0)
  }

  function Value(n: int, spec: ParamSpec): real {
    Clamp(n as real / 100.0, spec)
  }

  /** Storing loses at most half a hundredth and never leaves the range. */
  lemma RoundingIsClose(x: real, spec: ParamSpec)
    requires spec.min <= spec.max
    ensures var v := Value(Hundredths(x, spec), spec);
            && -0.005 <= v - Clamp(x, spec) <= 0.005
            && spec.min as real <= v <= spec.max as real
            && v == Hundredths(x, spec) as real / 100.0
  {
    var c := Clamp(x, spec);
    var n := Hundredths(x, spec);
    assert c * 100.0 - 0.5 <= n as real <= c * 100.0 + 0.5;
    assert 100 * spec.min <= n <= 100 * spec.max;
  }

  /** A value on the grid stays where it is. */
  lemma GridIsFixed(n: int, spec: ParamSpec)
    requires spec.min <= spec.max
    ensures Value(Hundredths(Value(n, spec), spec), spec) == Value(n, spec)
    ensures spec.min as real <= Value(n, spec) <= spec.max as real
  {
    var v := Value(n, spec);
    var m := if n < 100 * spec.min then 100 * spec.min else if n > 100 * spec.max then 100 * spec.max else n;
    assert v * 100.0 == m as real;
    assert Clamp(v, spec) == v;
    assert Hundredths(v, spec) == m;
  }

  // ----------------------------------------------------------- encode and decode

  function Assignment(spec: ParamSpec, x: real): string {
    Join([spec.token, Print(Hundredths(x, spec))], '.')
  }

  /** `values` holds the parameters that read as finite numbers. */
  function Assignments(specs: seq<ParamSpec>, values: map<Key, real>): seq<string> {
    if specs == [] then []
    else
      var last := specs[|specs| - 1];
      Assignments(specs[..|specs| - 1], values) + (if last.key in values then [Assignment(last, values[last.key])] else [])
  }

  function AllAssignments(style: Style, values: Option<map<Key, real>>): seq<string> {
    if Registry(style).None? || values.None? then [] else Assignments(Registry(style).value, values.value)
  }

  function Encoded(params: Params, style: Style, values: Option<map<Key, real>>): Params {
    var assignments := AllAssignments(style, values);
    if assignments == [] then params - {SP} else params[SP := Join(assignments, '_')]
  }

  function TokenOf(spec: ParamSpec): string {
    spec.token
  }

  function SpecOf(specs: seq<ParamSpec>, token: string): Option<ParamSpec> {
    ByToken(specs, TokenOf, token)
  }

  function Apply(specs: seq<ParamSpec>, decoded: map<Key, real>, assignment: string): map<Key, real> {
    var fields := Split(assignment, '.');
    if |fields| != 2 || !IsInteger(fields[1]) then decoded
    else
      var spec := SpecOf(specs, fields[0]);
      if spec.None? then decoded else decoded[spec.value.key := Value(ParseInteger(fields[1]), spec.value)]
  }

  function Fold(specs: seq<ParamSpec>, assignments: seq<string>): map<Key, real> {
    if assignments == [] then map[]
    else Apply(specs, Fold(specs, assignments[..|assignments| - 1]), assignments[|assignments| - 1])
  }

  function Decoded(params: Params, style: Style): Option<map<Key, real>> {
    if !Current(params) || SP !in params || Registry(style).None? then None
    else
      var decoded := Fold(Registry(style).value, Split(params[SP], '_'));
      if decoded == map[] then None else Some(decoded)
  }

  /** Each known parameter, clamped and rounded to the grid. */
  function Quantized(specs: seq<ParamSpec>, values: map<Key, real>): map<Key, real> {
    if specs == [] then map[]
    else
      var last := specs[|specs| - 1];
      var rest := Quantized(specs[..|specs| - 1], values);
      if last.key in values then rest[last.key := Value(Hundredths(values[last.key], last), last)] else rest
  }

  // --------------------------------------------------------------- the round trip

  lemma SpecOfToken(specs: seq<ParamSpec>, i: nat)
    requires RegistryOk(specs) && i < |specs|
    ensures SpecOf(specs, specs[i].token) == Some(specs[i])
  {
    ByTokenFinds(specs, TokenOf, i);
  }

  lemma FieldsOf(spec: ParamSpec, x: real)
    requires |spec.token| == 1 && 'a' <= spec.token[0] <= 'z'
    ensures Split(Assignment(spec, x), '.') == [spec.token, Print(Hundredths(x, spec))]
    ensures '_' !in Assignment(spec, x)
  {
    hide Hundredths, Print;
    var n := Hundredths(x, spec);
    PrintParses(n);
    SplitJoin([spec.token, Print(n)], '.');
    if '_' in Assignment(spec, x) {
      JoinHolds([spec.token, Print(n)], '.', '_');
    }
  }

  lemma ReadsBack(specs: seq<ParamSpec>, i: nat, decoded: map<Key, real>, x: real)
    requires RegistryOk(specs) && i < |specs|
    ensures Apply(specs, decoded, Assignment(specs[i], x))
            == decoded[specs[i].key := Value(Hundredths(x, specs[i]), specs[i])]
  {
    hide Assignment, Hundredths, Value, Print, ParseInteger, IsInteger;
    FieldsOf(specs[i], x);
    PrintParses(Hundredths(x, specs[i]));
    SpecOfToken(specs, i);
  }

  lemma FoldOneMore(specs: seq<ParamSpec>, before: seq<string>, assignment: string)
    ensures Fold(specs, before + [assignment]) == Apply(specs, Fold(specs, before), assignment)
  {
    hide Apply;
    assert (before + [assignment])[..|before|] == before;
  }

  lemma {:induction false} FoldReadsBack(specs: seq<ParamSpec>, n: nat, values: map<Key, real>)
    requires RegistryOk(specs) && n <= |specs|
    ensures Fold(specs, Assignments(specs[..n], values)) == Quantized(specs[..n], values)
    ensures Assignments(specs[..n], values) == [] ==> Quantized(specs[..n], values) == map[]
  {
    if n > 0 {
      hide Assignment, Hundredths, Value, Apply, Fold, RegistryOk;
      var last := specs[n - 1];
      assert specs[..n][..n - 1] == specs[..n - 1];
      FoldReadsBack(specs, n - 1, values);
      var before := Assignments(specs[..n - 1], values);
      if last.key in values {
        ReadsBack(specs, n - 1, Quantized(specs[..n - 1], values), values[last.key]);
        FoldOneMore(specs, before, Assignment(last, values[last.key]));
      } else {
        assert before + [] == before;
      }
    }
  }

  lemma {:induction false} AssignmentsArePlain(specs: seq<ParamSpec>, values: map<Key, real>)
    requires RegistryOk(specs)
    ensures forall a <- Assignments(specs, values) :: '_' !in a
    ensures Assignments(specs, values) == [] <==> Quantized(specs, values) == map[]
  {
    if specs != [] {
      hide Assignment, Hundredths, Value;
      var last := specs[|specs| - 1];
      AssignmentsArePlain(specs[..|specs| - 1], values);
      if last.key in values {
        FieldsOf(last, values[last.key]);
        assert last.key in Quantized(specs, values);
      }
    }
  }

  lemma TextRoundTrip(specs: seq<ParamSpec>, values: map<Key, real>)
    requires RegistryOk(specs) && Assignments(specs, values) != []
    ensures Fold(specs, Split(Join(Assignments(specs, values), '_'), '_')) == Quantized(specs, values) != map[]
  {
    hide RegistryOk, Assignments, Quantized, Fold;
    AssignmentsArePlain(specs, values);
    SplitJoin(Assignments(specs, values), '_');
    assert specs[..|specs|] == specs;
    FoldReadsBack(specs, |specs|, values);
  }

  /** The round trip: a link decodes to its values, clamped and on the grid. */
  lemma RoundTrip(params: Params, style: Style, values: map<Key, real>)
    requires Current(params) && Registry(style).Some?
    ensures var quantized := Quantized(Registry(style).value, values);
            Decoded(Encoded(params, style, Some(values)), style) == if quantized == map[] then None else Some(quantized)
  {
    hide Registry, RegistryOk, Assignments, Quantized, Fold;
    var specs := Registry(style).value;
    RegistriesAreOk(style);
    AssignmentsArePlain(specs, values);
    if Assignments(specs, values) != [] {
      TextRoundTrip(specs, values);
    }
  }

  /** What `Quantized` holds: exactly the registered values, each in range and within 0.005 of the clamped one. */
  lemma {:induction false} QuantizedIsClose(specs: seq<ParamSpec>, values: map<Key, real>, i: nat)
    requires RegistryOk(specs) && i < |specs|
    ensures var (quantized, spec) := (Quantized(specs, values), specs[i]);
            && (spec.key in quantized <==> spec.key in values)
            && (spec.key in values ==>
                  && quantized[spec.key] == Value(Hundredths(values[spec.key], spec), spec)
                  && -0.005 <= quantized[spec.key] - Clamp(values[spec.key], spec) <= 0.005
                  && spec.min as real <= quantized[spec.key] <= spec.max as real)
    decreases |specs|
  {
    hide Hundredths, Value, Clamp;
    var init := specs[..|specs| - 1];
    if specs[i].key in values {
      RoundingIsClose(values[specs[i].key], specs[i]);
    }
    if i < |init| {
      assert specs[i].key != specs[|specs| - 1].key;
      QuantizedIsClose(init, values, i);
    } else {
      QuantizedKeys(init, values);
      assert forall s <- init :: s.key != specs[i].key;
    }
  }

  lemma {:induction false} QuantizedKeys(specs: seq<ParamSpec>, values: map<Key, real>)
    ensures forall k <- Quantized(specs, values) :: k in values && exists s :: s in specs && s.key == k
  {
    if specs != [] {
      var init := specs[..|specs| - 1];
      QuantizedKeys(init, values);
      forall k | k in Quantized(specs, values)
        ensures k in values && exists s :: s in specs && s.key == k
      {
        if k in Quantized(init, values) {
          var s :| s in init && s.key == k;
          assert s in specs;
        } else {
          assert specs[|specs| - 1] in specs;
        }
      }
    }
  }

  // ----------------------------------------------------- fixed point, hostile text

  /** Every value belongs to a registered slider, lies in its range and on its grid. */
  ghost predicate Lawful(specs: seq<ParamSpec>, decoded: map<Key, real>) {
    forall k <- decoded :: exists s :: s in specs && s.key == k && OnGrid(decoded[k], s)
  }

  ghost predicate OnGrid(v: real, spec: ParamSpec) {
    Value(Hundredths(v, spec), spec) == v && spec.min as real <= v <= spec.max as real
  }

  lemma {:induction false} FoldIsLawful(specs: seq<ParamSpec>, assignments: seq<string>)
    requires RegistryOk(specs)
    ensures Lawful(specs, Fold(specs, assignments))
  {
    if assignments != [] {
      hide OnGrid, Value, IsInteger, ParseInteger;
      var init, last := assignments[..|assignments| - 1], assignments[|assignments| - 1];
      FoldIsLawful(specs, init);
      var fields := Split(last, '.');
      if |fields| == 2 && IsInteger(fields[1]) && SpecOf(specs, fields[0]).Some? {
        ByTokenIsRegistered(specs, TokenOf, fields[0]);
        var spec := SpecOf(specs, fields[0]).value;
        ValueIsOnGrid(ParseInteger(fields[1]), spec);
      }
    }
  }

  lemma ValueIsOnGrid(n: int, spec: ParamSpec)
    requires spec.min <= spec.max
    ensures OnGrid(Value(n, spec), spec)
  {
    hide Value, Hundredths;
    GridIsFixed(n, spec);
  }

  /** Values that are already lawful are stored without loss. */
  lemma LawfulIsFixed(specs: seq<ParamSpec>, decoded: map<Key, real>)
    requires RegistryOk(specs) && Lawful(specs, decoded)
    ensures Quantized(specs, decoded) == decoded
  {
    hide Quantized, Value, Hundredths;
    QuantizedKeys(specs, decoded);
    forall k | k in decoded
      ensures k in Quantized(specs, decoded) && Quantized(specs, decoded)[k] == decoded[k]
    {
      var s :| s in specs && s.key == k && OnGrid(decoded[k], s);
      var i :| 0 <= i < |specs| && specs[i] == s;
      QuantizedIsClose(specs, decoded, i);
    }
  }

  /**
   * Whatever string a link carries, it decodes only to registered parameters in
   * range, and encoding those again gives a link that decodes to the same.
   */
  lemma AnyLinkIsLawful(params: Params, style: Style)
    ensures var decoded := Decoded(params, style);
            decoded.Some? ==> && Registry(style).Some? && Lawful(Registry(style).value, decoded.value)
                              && Decoded(Encoded(params, style, decoded), style) == decoded
  {
    hide Registry, RegistryOk, Fold, Lawful, Encoded;
    var decoded := Decoded(params, style);
    if decoded.Some? {
      var specs := Registry(style).value;
      RegistriesAreOk(style);
      FoldIsLawful(specs, Split(params[SP], '_'));
      LawfulIsFixed(specs, decoded.value);
      RoundTrip(params, style, decoded.value);
    }
  }

  /** Re-encoding what a link decodes to writes the same link again. */
  lemma ReencodingIsFixed(params: Params, style: Style, values: map<Key, real>)
    requires Current(params)
    ensures var link := Encoded(params, style, Some(values));
            Encoded(params, style, Decoded(link, style)) == link
  {
    hide Registry, RegistryOk, Assignments, Quantized, Fold;
    if Registry(style).Some? {
      var specs := Registry(style).value;
      RegistriesAreOk(style);
      RoundTrip(params, style, values);
      AssignmentsArePlain(specs, values);
      SameAssignments(specs, |specs|, values);
    }
  }

  lemma {:induction false} SameAssignments(specs: seq<ParamSpec>, n: nat, values: map<Key, real>)
    requires RegistryOk(specs) && n <= |specs|
    ensures Assignments(specs[..n], Quantized(specs, values)) == Assignments(specs[..n], values)
    ensures n == |specs| ==> Assignments(specs, Quantized(specs, values)) == Assignments(specs, values)
  {
    assert specs[..|specs|] == specs;
    if n > 0 {
      hide Assignment, Quantized, Value, Hundredths, Clamp, RegistryOk;
      assert specs[..n][..n - 1] == specs[..n - 1];
      SameAssignments(specs, n - 1, values);
      QuantizedIsClose(specs, values, n - 1);
      if specs[n - 1].key in values {
        SameAssignment(specs, n - 1, values[specs[n - 1].key]);
      }
    }
  }

  lemma SameAssignment(specs: seq<ParamSpec>, i: nat, x: real)
    requires RegistryOk(specs) && i < |specs|
    ensures Assignment(specs[i], Value(Hundredths(x, specs[i]), specs[i])) == Assignment(specs[i], x)
  {
    hide Hundredths, Value, Join, Print;
    SameHundredths(specs[i], x);
  }

  lemma SameHundredths(spec: ParamSpec, x: real)
    requires spec.min <= spec.max
    ensures Hundredths(Value(Hundredths(x, spec), spec), spec) == Hundredths(x, spec)
  {
    RoundingIsClose(x, spec);
    var v := Value(Hundredths(x, spec), spec);
    assert v * 100.0 == Hundredths(x, spec) as real;
    assert Clamp(v, spec) == v;
  }
}
