/**
 * The rule configuration of src/scoring/rules.js: defaults merged with
 * custom options by object spread, and a validator that lists what is
 * missing or ill-typed. A configuration object is modelled by the values it
 * gives the five rule properties; a property is present exactly when it is
 * a key of the map (a present property may still hold `undefined`).
 */
module RuleSettings {
  import opened Wrappers
  import opened Js

  /** The rule properties the configuration knows. */
  datatype Prop =
    | ViewingYakuMode
    | SakeCupMode
    | AllowMultipleAnimalYaku
    | AllowMultipleRibbonYaku
    | AllowTeyaku

  /** The property's key in the object. */
  function PropName(p: Prop): string
  {
    match p
    case ViewingYakuMode => "viewingYakuMode"
    case SakeCupMode => "sakeCupMode"
    case AllowMultipleAnimalYaku => "allowMultipleAnimalYaku"
    case AllowMultipleRibbonYaku => "allowMultipleRibbonYaku"
    case AllowTeyaku => "allowTeyaku"
  }

  type Rules = map<Prop, Json>

  /** `DEFAULT_RULES`. */
  const DEFAULT_RULES: Rules := map[
    ViewingYakuMode := JString("ENABLED"),
    SakeCupMode := JString("ANIMAL_ONLY"),
    AllowMultipleAnimalYaku := JBool(false),
    AllowMultipleRibbonYaku := JBool(false),
    AllowTeyaku := JBool(true)]

  /** The properties the validator insists on, in the order it checks them. */
  const REQUIRED_PROPS: seq<Prop> :=
    [ViewingYakuMode, SakeCupMode, AllowMultipleAnimalYaku, AllowMultipleRibbonYaku]

  /** The accepted viewing yaku modes. */
  const VIEWING_YAKU_MODES: seq<Json> :=
    [JString("DISABLED"), JString("ENABLED"), JString("REQUIRES_OTHER_YAKU"), JString("WEATHER_DEPENDENT")]

  /** The accepted sake cup modes; the type comment also names EITHER, which the validator refuses. */
  const SAKE_CUP_MODES: seq<Json> := [JString("BOTH"), JString("ANIMAL_ONLY"), JString("CHAFF_ONLY")]

  /** `rules[prop]`: the value of a present property, otherwise undefined. */
  function Read(rules: Rules, p: Prop): (r: Json)
    ensures p !in rules ==> r == JUndefined
    ensures p in rules ==> r == rules[p]
  {
    if p in rules then rules[p] else JUndefined
  }

  /** `createRuleConfig(customRules = {})`: `{ ...DEFAULT_RULES, ...customRules }`. */
  function CreateRuleConfig(customRules: Option<Rules>): (r: Rules)
    ensures r.Keys == DEFAULT_RULES.Keys + (if customRules.Some? then customRules.value.Keys else {})
    ensures forall p :: p in r ==> r[p] == if customRules.Some? && p in customRules.value then customRules.value[p] else DEFAULT_RULES[p]
  {
    DEFAULT_RULES + (if customRules.Some? then customRules.value else map[])
  }

  /** The value `validateRuleConfig` is given: an object, an array, or a primitive. */
  datatype RulesValue =
    | RulesObject(props: Rules)
    | RulesArray            // `prop in []` is false for every rule property
    | RulesPrimitive        // null, undefined, a boolean, a number or a string

  /** A validation error, one per message the validator can push. */
  datatype RuleError =
    | MissingProperty(prop: Prop)
    | BadViewingYakuMode
    | BadSakeCupMode
    | NotBoolean(prop: Prop)

  /** The message text of an error. */
  function Message(e: RuleError): string
  {
    match e
    case MissingProperty(prop) => "Missing required property: " + PropName(prop)
    case BadViewingYakuMode => "viewingYakuMode must be one of: DISABLED, ENABLED, REQUIRES_OTHER_YAKU, WEATHER_DEPENDENT"
    case BadSakeCupMode => "sakeCupMode must be one of: BOTH, ANIMAL_ONLY, CHAFF_ONLY"
    case NotBoolean(prop) => PropName(prop) + " must be a boolean"
  }

  /** The properties a value has: an array has none of the rule properties. */
  function PropsOf(rules: RulesValue): Rules
  {
    if rules.RulesObject? then rules.props else map[]
  }

  /** The missing-property errors for `props`, in order. */
  function MissingErrors(props: seq<Prop>, rules: Rules): seq<RuleError>
  {
    if props == [] then []
    else (if props[0] in rules then [] else [MissingProperty(props[0])]) + MissingErrors(props[1..], rules)
  }

  /** One error per absent property and nothing else. */
  lemma {:induction false} MissingErrorsMeaning(props: seq<Prop>, rules: Rules)
    ensures forall e :: e in MissingErrors(props, rules) ==> e.MissingProperty?
    ensures forall p :: MissingProperty(p) in MissingErrors(props, rules) <==> p in props && p !in rules
  {
    if props != [] {
      MissingErrorsMeaning(props[1..], rules);
      assert forall p :: p in props <==> p == props[0] || p in props[1..];
    }
  }

  /** One check's contribution: nothing when it passes, its error when it fails. */
  function Report(ok: bool, e: RuleError): (r: seq<RuleError>)
    ensures ok <==> r == []
    ensures !ok ==> r == [e]
  {
    if ok then [] else [e]
  }

  /** The value checks, in the order the validator makes them. */
  function ValueErrors(rules: Rules): seq<RuleError>
  {
    Report(Read(rules, ViewingYakuMode) in VIEWING_YAKU_MODES, BadViewingYakuMode)
    + Report(Read(rules, SakeCupMode) in SAKE_CUP_MODES, BadSakeCupMode)
    + Report(Read(rules, AllowMultipleAnimalYaku).JBool?, NotBoolean(AllowMultipleAnimalYaku))
    + Report(Read(rules, AllowMultipleRibbonYaku).JBool?, NotBoolean(AllowMultipleRibbonYaku))
  }

  /** What `validateRuleConfig(rules)` returns; `in` on a primitive throws a TypeError. */
  function RuleConfigErrors(rules: RulesValue): Result<seq<RuleError>>
  {
    if rules.RulesPrimitive? then Err(TypeError)
    else Ok(MissingErrors(REQUIRED_PROPS, PropsOf(rules)) + ValueErrors(PropsOf(rules)))
  }

  /** The loop over the required properties, pushing an error for each one absent. */
  method ReportMissing(props: seq<Prop>, rules: Rules) returns (errors: seq<RuleError>)
    ensures errors == MissingErrors(props, rules)
  {
    errors := [];
    var k := 0;
    while k < |props|
      invariant 0 <= k <= |props|
      invariant errors + MissingErrors(props[k..], rules) == MissingErrors(props, rules)
    {
      assert props[k..][1..] == props[k + 1..];
      var prop := props[k];
      if prop !in rules {
        errors := errors + [MissingProperty(prop)];
      }
      k := k + 1;
    }
    assert props[k..] == [];
  }

  /** Pushes an error when its check fails. */
  method ReportStep(errors: seq<RuleError>, ok: bool, e: RuleError) returns (next: seq<RuleError>)
    ensures next == errors + Report(ok, e)
  {
    next := errors;
    if !ok {
      next := next + [e];
    }
  }

  /** `validateRuleConfig`: the property loop, then the four value checks. */
  method ValidateRuleConfig(rules: RulesValue) returns (r: Result<seq<RuleError>>)
    ensures r == RuleConfigErrors(rules)
  {
    if rules.RulesPrimitive? {
      return Err(TypeError);
    }
    var props := PropsOf(rules);
    var missing := ReportMissing(REQUIRED_PROPS, props);
    var errors := missing;
    errors := ReportStep(errors, Read(props, ViewingYakuMode) in VIEWING_YAKU_MODES, BadViewingYakuMode);
    errors := ReportStep(errors, Read(props, SakeCupMode) in SAKE_CUP_MODES, BadSakeCupMode);
    errors := ReportStep(errors, Read(props, AllowMultipleAnimalYaku).JBool?, NotBoolean(AllowMultipleAnimalYaku));
    errors := ReportStep(errors, Read(props, AllowMultipleRibbonYaku).JBool?, NotBoolean(AllowMultipleRibbonYaku));
    assert errors == missing + ValueErrors(props);
    r := Ok(errors);
  }

  /** Reading a merged configuration: the custom value when given, the default otherwise. */
  lemma CustomOverridesDefault(customRules: Rules, p: Prop)
    ensures p in CreateRuleConfig(Some(customRules))
    ensures Read(CreateRuleConfig(Some(customRules)), p) == if p in customRules then customRules[p] else DEFAULT_RULES[p]
  {
  }

  /** Without custom rules the configuration is the defaults, field for field. */
  lemma NoCustomRulesIsDefault()
    ensures CreateRuleConfig(None) == DEFAULT_RULES
    ensures CreateRuleConfig(Some(map[])) == DEFAULT_RULES
  {
  }

  /** On an object or an array, each error is reported exactly when its check fails. */
  lemma ErrorsMeaning(rules: RulesValue)
    requires !rules.RulesPrimitive?
    ensures RuleConfigErrors(rules).Ok?
    ensures var errors := RuleConfigErrors(rules).value; var props := PropsOf(rules);
      && (forall p :: MissingProperty(p) in errors <==> p in REQUIRED_PROPS && p !in props)
      && (BadViewingYakuMode in errors <==> Read(props, ViewingYakuMode) !in VIEWING_YAKU_MODES)
      && (BadSakeCupMode in errors <==> Read(props, SakeCupMode) !in SAKE_CUP_MODES)
      && (NotBoolean(AllowMultipleAnimalYaku) in errors <==> !Read(props, AllowMultipleAnimalYaku).JBool?)
      && (NotBoolean(AllowMultipleRibbonYaku) in errors <==> !Read(props, AllowMultipleRibbonYaku).JBool?)
      && (forall p :: NotBoolean(p) in errors ==> p == AllowMultipleAnimalYaku || p == AllowMultipleRibbonYaku)
  {
    var props := PropsOf(rules);
    var missing := MissingErrors(REQUIRED_PROPS, props);
    var values := ValueErrors(props);
    MissingErrorsMeaning(REQUIRED_PROPS, props);
    ValueErrorsMeaning(props);
    assert forall e :: e in missing + values <==> e in missing || e in values;
  }

  /** Each value check reports its own error exactly when it fails, and no missing-property error. */
  lemma ValueErrorsMeaning(props: Rules)
    ensures forall e :: e in ValueErrors(props) ==> !e.MissingProperty?
    ensures BadViewingYakuMode in ValueErrors(props) <==> Read(props, ViewingYakuMode) !in VIEWING_YAKU_MODES
    ensures BadSakeCupMode in ValueErrors(props) <==> Read(props, SakeCupMode) !in SAKE_CUP_MODES
    ensures NotBoolean(AllowMultipleAnimalYaku) in ValueErrors(props) <==> !Read(props, AllowMultipleAnimalYaku).JBool?
    ensures NotBoolean(AllowMultipleRibbonYaku) in ValueErrors(props) <==> !Read(props, AllowMultipleRibbonYaku).JBool?
    ensures forall p :: NotBoolean(p) in ValueErrors(props) ==> p == AllowMultipleAnimalYaku || p == AllowMultipleRibbonYaku
  {
    var a := Report(Read(props, ViewingYakuMode) in VIEWING_YAKU_MODES, BadViewingYakuMode);
    var b := Report(Read(props, SakeCupMode) in SAKE_CUP_MODES, BadSakeCupMode);
    var c := Report(Read(props, AllowMultipleAnimalYaku).JBool?, NotBoolean(AllowMultipleAnimalYaku));
    var d := Report(Read(props, AllowMultipleRibbonYaku).JBool?, NotBoolean(AllowMultipleRibbonYaku));
    assert ValueErrors(props) == a + b + c + d;
    assert forall e :: e in a + b + c + d <==> e in a || e in b || e in c || e in d;
  }

  /** The list is empty exactly when every property is present and every value check passes. */
  lemma NoErrorsMeansValid(rules: RulesValue)
    requires !rules.RulesPrimitive?
    ensures RuleConfigErrors(rules) == Ok([]) <==>
      var props := PropsOf(rules);
      && (forall p :: p in REQUIRED_PROPS ==> p in props)
      && Read(props, ViewingYakuMode) in VIEWING_YAKU_MODES
      && Read(props, SakeCupMode) in SAKE_CUP_MODES
      && Read(props, AllowMultipleAnimalYaku).JBool?
      && Read(props, AllowMultipleRibbonYaku).JBool?
  {
    var missing := MissingErrors(REQUIRED_PROPS, PropsOf(rules));
    MissingErrorsMeaning(REQUIRED_PROPS, PropsOf(rules));
    if missing != [] {
      assert missing[0] in missing;
    }
  }

  /** An array lacks every required property and every value, so all eight errors are listed. */
  lemma ArrayFailsEverything()
    ensures RuleConfigErrors(RulesArray) == Ok([
      MissingProperty(ViewingYakuMode), MissingProperty(SakeCupMode),
      MissingProperty(AllowMultipleAnimalYaku), MissingProperty(AllowMultipleRibbonYaku),
      BadViewingYakuMode, BadSakeCupMode,
      NotBoolean(AllowMultipleAnimalYaku), NotBoolean(AllowMultipleRibbonYaku)])
  {
    var none := PropsOf(RulesArray);
    assert none == map[];
    assert MissingErrors(REQUIRED_PROPS[3..], none) == [MissingProperty(AllowMultipleRibbonYaku)];
    assert MissingErrors(REQUIRED_PROPS[2..], none) == [MissingProperty(AllowMultipleAnimalYaku), MissingProperty(AllowMultipleRibbonYaku)];
    assert MissingErrors(REQUIRED_PROPS[1..], none) ==
      [MissingProperty(SakeCupMode), MissingProperty(AllowMultipleAnimalYaku), MissingProperty(AllowMultipleRibbonYaku)];
    assert JUndefined !in VIEWING_YAKU_MODES;
    assert JUndefined !in SAKE_CUP_MODES;
    assert MissingErrors(REQUIRED_PROPS, none) ==
      [MissingProperty(ViewingYakuMode), MissingProperty(SakeCupMode), MissingProperty(AllowMultipleAnimalYaku), MissingProperty(AllowMultipleRibbonYaku)];
    assert ValueErrors(none) ==
      [BadViewingYakuMode, BadSakeCupMode, NotBoolean(AllowMultipleAnimalYaku), NotBoolean(AllowMultipleRibbonYaku)];
    assert RuleConfigErrors(RulesArray) == Ok(MissingErrors(REQUIRED_PROPS, none) + ValueErrors(none));
    assert [MissingProperty(ViewingYakuMode), MissingProperty(SakeCupMode), MissingProperty(AllowMultipleAnimalYaku), MissingProperty(AllowMultipleRibbonYaku)]
      + [BadViewingYakuMode, BadSakeCupMode, NotBoolean(AllowMultipleAnimalYaku), NotBoolean(AllowMultipleRibbonYaku)]
      == [MissingProperty(ViewingYakuMode), MissingProperty(SakeCupMode), MissingProperty(AllowMultipleAnimalYaku), MissingProperty(AllowMultipleRibbonYaku),
          BadViewingYakuMode, BadSakeCupMode, NotBoolean(AllowMultipleAnimalYaku), NotBoolean(AllowMultipleRibbonYaku)];
  }

  /** Anything but an object or an array makes the validator throw. */
  lemma PrimitiveThrows(rules: RulesValue)
    requires rules.RulesPrimitive?
    ensures RuleConfigErrors(rules) == Err(TypeError)
  {
  }

  /** The default configuration passes the validator, with no custom rules or with an empty set of them. */
  lemma DefaultsAreValid()
    ensures RuleConfigErrors(RulesObject(CreateRuleConfig(None))) == Ok([])
    ensures RuleConfigErrors(RulesObject(CreateRuleConfig(Some(map[])))) == Ok([])
  {
    NoCustomRulesIsDefault();
    NoErrorsMeansValid(RulesObject(DEFAULT_RULES));
  }
}
