/** `PRMBackupHandler.validateConfig` and the constructor that calls it. */
module ConfigValidation {
  import opened Results
  import opened JsValues

  /** The two errors `validateConfig` throws. `InvalidValue` carries the key
      and value its message interpolates. */
  datatype ConfigError = ConfigRequired | InvalidValue(key: Key, value: JsValue)

  /** A constructed handler; its only state is the configuration. */
  datatype Handler = Handler(config: JsValue)

  ghost predicate AllTruthy(es: seq<Entry>)
  {
    forall i :: 0 <= i < |es| ==> Truthy(es[i].value)
  }

  /** Entry `i` is where the `for...in` loop stops: its value is falsy and
      every entry visited before it was truthy. */
  ghost predicate IsFirstFalsy(es: seq<Entry>, i: int)
  {
    && 0 <= i < |es|
    && !Truthy(es[i].value)
    && forall j :: 0 <= j < i ==> Truthy(es[j].value)
  }

  /** The position at which the loop over `es` throws, if it does. */
  function FirstFalsy(es: seq<Entry>): (r: Option<nat>)
    ensures r.None? <==> AllTruthy(es)
    ensures r.Some? ==> IsFirstFalsy(es, r.value)
  {
    if |es| == 0 then None
    else if !Truthy(es[0].value) then Some(0)
    else match FirstFalsy(es[1..])
      case None => None
      case Some(i) => Some(i + 1)
  }

  /** `validateConfig`: a falsy config is rejected before any key is looked
      at; otherwise the keys are visited in order and the first falsy value
      is reported together with its key. */
  function Validate(config: JsValue): (r: Result<(), ConfigError>)
    ensures !Truthy(config) ==> r == Failure(ConfigRequired)
    ensures Truthy(config) ==> (r.Success? <==> AllTruthy(EnumerableEntries(config)))
    ensures Truthy(config) && r.Failure? ==>
      exists i :: IsFirstFalsy(EnumerableEntries(config), i)
        && r.error == InvalidValue(EnumerableEntries(config)[i].key, EnumerableEntries(config)[i].value)
  {
    if !Truthy(config) then Failure(ConfigRequired)
    else
      var es := EnumerableEntries(config);
      match FirstFalsy(es)
      case None => Success(())
      case Some(i) => Failure(InvalidValue(es[i].key, es[i].value))
  }

  /** The constructor: validation first, and the configuration is stored
      unchanged only when validation did not throw. */
  function NewHandler(config: JsValue): (r: Result<Handler, ConfigError>)
    ensures r.Success? <==> Validate(config).Success?
    ensures r.Success? ==> r.value.config == config
    ensures r.Failure? ==> Validate(config) == Failure(r.error)
  {
    match Validate(config)
    case Failure(e) => Failure(e)
    case Success(_) => Success(Handler(config))
  }

  /** Once a falsy entry has been visited, nothing after it matters. */
  lemma {:induction false} FirstFalsyIgnoresSuffix(es: seq<Entry>, rest: seq<Entry>)
    requires !AllTruthy(es)
    ensures FirstFalsy(es + rest) == FirstFalsy(es)
  {
    if Truthy(es[0].value) {
      var k :| 0 <= k < |es| && !Truthy(es[k].value);
      assert !Truthy(es[1..][k - 1].value);
      assert (es + rest)[1..] == es[1..] + rest;
      FirstFalsyIgnoresSuffix(es[1..], rest);
    }
  }

  /** When every entry so far is truthy, the outcome is decided by what
      follows. */
  lemma {:induction false} FirstFalsyAfterTruthy(es: seq<Entry>, rest: seq<Entry>)
    requires AllTruthy(es)
    ensures FirstFalsy(es + rest) == if FirstFalsy(rest).None? then None else Some(|es| + FirstFalsy(rest).value)
  {
    if |es| == 0 {
      assert es + rest == rest;
    } else {
      assert (es + rest)[0] == es[0];
      assert (es + rest)[1..] == es[1..] + rest;
      FirstFalsyAfterTruthy(es[1..], rest);
    }
  }

  lemma PropertyEntriesAppend(ps: seq<Property>, qs: seq<Property>)
    ensures PropertyEntries(ps + qs) == PropertyEntries(ps) + PropertyEntries(qs)
  {
  }

  /** For an object config, once the loop meets a falsy value in the leading
      properties `ps`, the properties after them cannot change the outcome. */
  lemma LaterKeysIrrelevant(ps: seq<Property>, qs1: seq<Property>, qs2: seq<Property>)
    requires exists i :: 0 <= i < |ps| && !Truthy(ps[i].value)
    ensures Validate(Obj(ps + qs1)) == Validate(Obj(ps + qs2))
    ensures Validate(Obj(ps + qs1)).Failure?
  {
    var es := PropertyEntries(ps);
    var i :| 0 <= i < |ps| && !Truthy(ps[i].value);
    assert !Truthy(es[i].value);
    PropertyEntriesAppend(ps, qs1);
    PropertyEntriesAppend(ps, qs2);
    FirstFalsyIgnoresSuffix(es, PropertyEntries(qs1));
    FirstFalsyIgnoresSuffix(es, PropertyEntries(qs2));
    var f := FirstFalsy(es).value;
    assert (es + PropertyEntries(qs1))[f] == es[f] == (es + PropertyEntries(qs2))[f];
  }

  /** Any one falsy value anywhere in an object config rejects it; when
      every property before it is truthy, the error names that property. */
  lemma FalsyValueRejects(ps: seq<Property>, key: string, v: JsValue, qs: seq<Property>)
    requires !Truthy(v)
    ensures Validate(Obj(ps + [Property(key, v)] + qs)).Failure?
    ensures (forall i :: 0 <= i < |ps| ==> Truthy(ps[i].value)) ==>
      Validate(Obj(ps + [Property(key, v)] + qs)) == Failure(InvalidValue(Name(key), v))
  {
    var all := ps + [Property(key, v)] + qs;
    assert all == ps + ([Property(key, v)] + qs);
    assert all[|ps|] == Property(key, v);
    LaterKeysIrrelevant(ps + [Property(key, v)], qs, qs);
    if forall i :: 0 <= i < |ps| ==> Truthy(ps[i].value) {
      PropertyEntriesAppend(ps, [Property(key, v)] + qs);
      var es := PropertyEntries(ps);
      assert AllTruthy(es);
      var tail := PropertyEntries([Property(key, v)] + qs);
      assert FirstFalsy(tail) == Some(0);
      FirstFalsyAfterTruthy(es, tail);
    }
  }

  /** Validation is shallow: object- and array-valued settings are truthy
      whatever they contain, so only the top level is ever examined. */
  lemma ValidationIsShallow(ps: seq<Property>, key: string, inner: JsValue, qs: seq<Property>)
    requires inner.Obj? || inner.Arr?
    ensures Validate(Obj(ps + [Property(key, inner)] + qs)) == Validate(Obj(ps + [Property(key, Bool(true))] + qs))
  {
    var a, b := ps + [Property(key, inner)] + qs, ps + [Property(key, Bool(true))] + qs;
    var ea, eb := PropertyEntries(a), PropertyEntries(b);
    assert forall i :: 0 <= i < |ea| ==> (Truthy(ea[i].value) <==> Truthy(eb[i].value));
    assert forall i :: 0 <= i < |ea| && i != |ps| ==> ea[i] == eb[i];
    FirstFalsyAgree(ea, eb);
  }

  /** Two entry lists with the same keys and the same truthiness pattern
      stop at the same place with the same key. */
  lemma {:induction false} FirstFalsyAgree(ea: seq<Entry>, eb: seq<Entry>)
    requires |ea| == |eb|
    requires forall i :: 0 <= i < |ea| ==> (Truthy(ea[i].value) <==> Truthy(eb[i].value))
    ensures FirstFalsy(ea) == FirstFalsy(eb)
  {
    if |ea| > 0 {
      FirstFalsyAgree(ea[1..], eb[1..]);
    }
  }

  /** A truthy primitive has no falsy entries: a non-empty string, a
      non-zero number or `true` is accepted as a configuration. */
  lemma TruthyPrimitiveAccepted(config: JsValue)
    requires Truthy(config) && !config.Obj? && !config.Arr?
    ensures Validate(config) == Success(())
  {
  }

  /** An object whose values are all truthy is accepted; with no properties
      at all, `{}` is accepted vacuously. */
  lemma ObjectOfTruthyValuesAccepted(ps: seq<Property>)
    requires forall i :: 0 <= i < |ps| ==> Truthy(ps[i].value)
    ensures Validate(Obj(ps)) == Success(())
  {
  }
}
