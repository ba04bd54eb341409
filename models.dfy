/**
 * llminfo_cli/models.py: `select_best_free_model`. Keep the free models;
 * prefer those whose context window exceeds 32000 tokens, falling back to all
 * free models when none does; then take the first candidate with the lowest
 * prompt price (the list is sorted stably, so ties keep input order).
 */
module Models {
  import opened Wrappers
  import opened JsonValues
  import opened Errors
  import opened Schemas
  import opened Collections
  import opened Decimal

  const ContextThreshold: int := 32000

  /** The price key of a model whose pricing is missing or empty. */
  const NoPriceKey: real := 999999.0

  // ---------------------------------------------------------------------------
  // float() of a price

  /** Position of the first '.', or |s| when there is none. */
  function IndexOfDot(s: string): (d: nat)
    ensures d <= |s|
    ensures d < |s| ==> s[d] == '.'
  {
    if s == [] then 0 else if s[0] == '.' then 0 else 1 + IndexOfDot(s[1..])
  }

  /** digits, digits '.', '.' digits or digits '.' digits. */
  function ParseUnsignedDecimal(s: string): Option<real>
  {
    var d := IndexOfDot(s);
    var whole := s[..d];
    var frac := if d < |s| then s[d + 1..] else [];
    if |whole| + |frac| > 0 && AllDigits(whole) && AllDigits(frac) then
      Some(DigitsValue(whole) as real + DigitsValue(frac) as real / Pow10(|frac|) as real)
    else None
  }

  /** `float(s)` for a decimal literal with an optional sign. */
  function ParseDecimal(s: string): Option<real>
  {
    if s != [] && (s[0] == '-' || s[0] == '+') then
      match ParseUnsignedDecimal(s[1..])
      case None => None
      case Some(x) => Some(if s[0] == '-' then -x else x)
    else ParseUnsignedDecimal(s)
  }

  lemma {:induction false} NoDotInDigits(s: string)
    requires AllDigits(s)
    ensures IndexOfDot(s) == |s|
  {
    if s != [] {
      NoDotInDigits(s[1..]);
    }
  }

  /** float(str(n)) == n: the parser reads back every integer literal. */
  lemma ParseDecimalOfNatString(n: nat)
    ensures ParseDecimal(NatToString(n)) == Some(n as real)
  {
    var s := NatToString(n);
    NoDotInDigits(s);
    NatToStringRoundTrip(n);
    assert s[..|s|] == s;
  }

  /** `float(v)` of a decoded value. */
  function FloatOf(v: Json): Result<real, Exc>
  {
    match v
    case JNum(n) => Ok(n)
    case JBool(b) => Ok(if b then 1.0 else 0.0)
    case JStr(s) =>
      (match ParseDecimal(s)
       case None => Err(ValueError(NotAFloat(s)))
       case Some(x) => Ok(x))
    case _ => Err(TypeError)
  }

  /** The sort key: `float(pricing.get("prompt", "999999")) if pricing else 999999`. */
  function PriceKey(m: ModelInfo): (r: Result<real, Exc>)
    ensures m.pricing.None? || m.pricing.value == map[] ==> r == Ok(NoPriceKey)
    ensures r.Err? ==> r.error == TypeError || (r.error.ValueError? && r.error.problem.NotAFloat?)
  {
    if m.pricing.None? || m.pricing.value == map[] then Ok(NoPriceKey)
    else FloatOf(Get(m.pricing.value, "prompt", JStr("999999")))
  }

  // ---------------------------------------------------------------------------
  // The selection

  predicate IsFreeModel(m: ModelInfo) { m.isFree }

  /** `(m.context_length or 0) > 32000` */
  predicate HasLongContext(m: ModelInfo)
  {
    (if m.contextLength.Some? then m.contextLength.value else 0) > ContextThreshold
  }

  predicate IsFreeLong(m: ModelInfo) { m.isFree && HasLongContext(m) }

  /** The list that gets sorted. */
  function Candidates(models: seq<ModelInfo>): seq<ModelInfo>
  {
    var free := Filter(models, IsFreeModel);
    var long := Filter(free, HasLongContext);
    if long == [] then free else long
  }

  /**
   * `select_best_free_model(models)`: a free member of the input, or "No free
   * models available", or the error `float()` raised on a price.
   */
  function SelectBestFreeModel(models: seq<ModelInfo>): (r: Result<ModelInfo, Exc>)
    ensures r.Ok? ==> r.value in models && r.value.isFree
    ensures r.Err? ==> || r.error == ValueError(NoFreeModels) || r.error == TypeError
                       || (r.error.ValueError? && r.error.problem.NotAFloat?)
  {
    var free := Filter(models, IsFreeModel);
    if free == [] then Err(ValueError(NoFreeModels))
    else
      var candidates := Candidates(models);
      match MapAll(candidates, PriceKey)
      case Err(e) => Err(e)
      case Ok(keys) =>
        var k := FirstMinimum(keys);
        assert candidates[k] in free by {
          var long := Filter(free, HasLongContext);
          if long != [] {
            assert candidates == long;
          }
        }
        Ok(candidates[k])
  }

  // ---------------------------------------------------------------------------
  // What the selection promises, stated on the input list

  predicate AnyFree(models: seq<ModelInfo>)
  {
    exists i :: 0 <= i < |models| && models[i].isFree
  }

  predicate AnyLongFree(models: seq<ModelInfo>)
  {
    exists i :: 0 <= i < |models| && IsFreeLong(models[i])
  }

  /** A model the selection may pick: free, and long-context whenever some free model is. */
  predicate Eligible(m: ModelInfo, models: seq<ModelInfo>)
  {
    m.isFree && (AnyLongFree(models) ==> HasLongContext(m))
  }

  /** Every eligible model has a price key that float() can compute. */
  predicate AllEligiblePriced(models: seq<ModelInfo>)
  {
    forall i :: 0 <= i < |models| && Eligible(models[i], models) ==> PriceKey(models[i]).Ok?
  }

  /** `models[i]` is eligible, no eligible model is cheaper, and every eligible model before it is dearer. */
  predicate IsFirstCheapest(models: seq<ModelInfo>, i: int)
  {
    && 0 <= i < |models| && Eligible(models[i], models) && PriceKey(models[i]).Ok?
    && (forall j :: 0 <= j < |models| && Eligible(models[j], models) ==>
          PriceKey(models[j]).Ok? && PriceKey(models[i]).value <= PriceKey(models[j]).value)
    && (forall j :: 0 <= j < i && Eligible(models[j], models) ==>
          PriceKey(models[j]).Ok? && PriceKey(models[j]).value > PriceKey(models[i]).value)
  }

  /** The two filters together keep exactly the eligible models, in input order. */
  lemma CandidatesAreEligible(models: seq<ModelInfo>)
    ensures Candidates(models) == Filter(models, m => Eligible(m, models))
  {
    var free := Filter(models, IsFreeModel);
    var long := Filter(free, HasLongContext);
    FilterFilter(models, IsFreeModel, HasLongContext, IsFreeLong);
    if long != [] {
      assert long[0] in models;
      assert AnyLongFree(models);
      FilterCongruent(models, IsFreeLong, m => Eligible(m, models));
    } else {
      FilterCongruent(models, IsFreeModel, m => Eligible(m, models));
    }
  }

  /** Some model survives the free filter exactly when some model is free. */
  lemma FreeFilterNonEmpty(models: seq<ModelInfo>)
    ensures Filter(models, IsFreeModel) != [] <==> AnyFree(models)
  {
    var free := Filter(models, IsFreeModel);
    if AnyFree(models) {
      var i :| 0 <= i < |models| && models[i].isFree;
      assert models[i] in free;
    }
  }

  /** A non-empty pricing without "prompt" reads the default "999999": it sorts with the unpriced models. */
  lemma MissingPromptSortsWithUnpriced(m: ModelInfo)
    requires m.pricing.Some? && m.pricing.value != map[] && "prompt" !in m.pricing.value
    ensures PriceKey(m) == Ok(NoPriceKey)
  {
    var s := "999999";
    NoDotInDigits(s);
    assert s[..|s|] == s;
    assert s[..5] == "99999" && "99999"[..4] == "9999" && "9999"[..3] == "999";
    assert "999"[..2] == "99" && "99"[..1] == "9" && "9"[..0] == "";
    assert DigitsValue(s) == 999999;
  }

  /** Without a free model the selection fails with "No free models available", and only then. */
  lemma NoFreeModelsIffNoneFree(models: seq<ModelInfo>)
    ensures SelectBestFreeModel(models) == Err(ValueError(NoFreeModels)) <==> !AnyFree(models)
  {
    FreeFilterNonEmpty(models);
    if AnyFree(models) {
      var candidates := Candidates(models);
      var keys := MapAll(candidates, PriceKey);
      if keys.Err? {
        var k :| 0 <= k < |candidates| && PriceKey(candidates[k]) == Err(keys.error);
      }
    }
  }

  /**
   * The selection succeeds exactly when there is a free model and every
   * eligible model has a readable price; it then returns the first eligible
   * model of least price. Otherwise, with free models present, it fails with
   * the error of the first eligible model whose price cannot be read.
   */
  lemma SelectionIsFirstCheapestEligible(models: seq<ModelInfo>)
    ensures SelectBestFreeModel(models).Ok? <==> AnyFree(models) && AllEligiblePriced(models)
    ensures SelectBestFreeModel(models).Ok? ==>
              exists i :: IsFirstCheapest(models, i) && models[i] == SelectBestFreeModel(models).value
    ensures AnyFree(models) && SelectBestFreeModel(models).Err? ==>
              exists i :: && 0 <= i < |models| && Eligible(models[i], models)
                          && PriceKey(models[i]) == Err(SelectBestFreeModel(models).error)
                          && forall j :: 0 <= j < i && Eligible(models[j], models) ==> PriceKey(models[j]).Ok?
  {
    NoFreeModelsIffNoneFree(models);
    var r := SelectBestFreeModel(models);
    var E := m => Eligible(m, models);
    var candidates := Candidates(models);
    CandidatesAreEligible(models);
    if !AnyFree(models) {
      return;
    }
    var keys := MapAll(candidates, PriceKey);
    if keys.Ok? {
      var k := FirstMinimum(keys.value);
      var u := RankSurjective(models, E, k);
      FilterAt(models, E, u);
      assert r.value == models[u];
      forall j | 0 <= j < |models| && Eligible(models[j], models)
        ensures PriceKey(models[j]).Ok? && PriceKey(models[u]).value <= PriceKey(models[j]).value
      {
        FilterAt(models, E, j);
      }
      forall j | 0 <= j < u && Eligible(models[j], models)
        ensures PriceKey(models[j]).Ok? && PriceKey(models[j]).value > PriceKey(models[u]).value
      {
        FilterAt(models, E, j);
        RankMonotone(models, E, j, u);
      }
      assert IsFirstCheapest(models, u);
      forall t | 0 <= t < |models| && Eligible(models[t], models)
        ensures PriceKey(models[t]).Ok?
      {
        FilterAt(models, E, t);
      }
    } else {
      var i :| 0 <= i < |candidates| && PriceKey(candidates[i]) == Err(keys.error)
               && forall j :: 0 <= j < i ==> PriceKey(candidates[j]).Ok?;
      var u := RankSurjective(models, E, i);
      FilterAt(models, E, u);
      forall t | 0 <= t < u && Eligible(models[t], models)
        ensures PriceKey(models[t]).Ok?
      {
        FilterAt(models, E, t);
        RankMonotone(models, E, t, u);
      }
      assert !AllEligiblePriced(models);
    }
  }

  /**
   * The chosen model is a free member of the input; it has a context window
   * above 32000 whenever some free model does; and no candidate is cheaper.
   */
  lemma SelectionPrefersLongContext(models: seq<ModelInfo>)
    requires SelectBestFreeModel(models).Ok?
    ensures SelectBestFreeModel(models).value in models
    ensures SelectBestFreeModel(models).value.isFree
    ensures AnyLongFree(models) ==> HasLongContext(SelectBestFreeModel(models).value)
    ensures forall j :: 0 <= j < |models| && Eligible(models[j], models) ==>
              PriceKey(models[j]).Ok? && PriceKey(SelectBestFreeModel(models).value).value <= PriceKey(models[j]).value
  {
    SelectionIsFirstCheapestEligible(models);
  }

  lemma CentPrices()
    ensures ParseDecimal("0.01") == Some(0.01)
    ensures ParseDecimal("0.00") == Some(0.0)
  {
    assert IndexOfDot(".01") == 0 && IndexOfDot(".00") == 0;
    assert "0.01"[1..] == ".01" && "0.00"[1..] == ".00";
    assert "0.01"[..1] == "0" && "0.01"[2..] == "01";
    assert "0.00"[..1] == "0" && "0.00"[2..] == "00";
    assert DigitsValue("01") == 1 && DigitsValue("00") == 0 && DigitsValue("0") == 0 by {
      assert "01"[..1] == "0" && "00"[..1] == "0" && "0"[..0] == "";
    }
  }

  /** A free long-context model beats a free short-context one, whatever their prices. */
  lemma LongContextBeatsShort(m1: ModelInfo, m2: ModelInfo)
    requires m1.isFree && m2.isFree && !HasLongContext(m1) && HasLongContext(m2)
    requires PriceKey(m2).Ok?
    ensures SelectBestFreeModel([m1, m2]) == Ok(m2)
  {
    var ms := [m1, m2];
    assert IsFreeLong(ms[1]);
    assert AnyFree(ms);
    assert AllEligiblePriced(ms) by {
      assert !Eligible(ms[0], ms);
    }
    SelectionIsFirstCheapestEligible(ms);
    var i :| IsFirstCheapest(ms, i) && ms[i] == SelectBestFreeModel(ms).value;
    assert !Eligible(ms[0], ms);
  }

  /** Two free models, 32000 and 131072 tokens, priced "0.01" and "0.00": the second wins. */
  lemma LongContextAndCheaperPriceWin()
    ensures var m1 := ModelInfo("model1", "Model 1", Some(32000), Some(map["prompt" := JStr("0.01")]), true);
            var m2 := ModelInfo("model2", "Model 2", Some(131072), Some(map["prompt" := JStr("0.00")]), true);
            SelectBestFreeModel([m1, m2]) == Ok(m2)
  {
    var m1 := ModelInfo("model1", "Model 1", Some(32000), Some(map["prompt" := JStr("0.01")]), true);
    var m2 := ModelInfo("model2", "Model 2", Some(131072), Some(map["prompt" := JStr("0.00")]), true);
    CentPrices();
    assert "prompt" in m2.pricing.value;
    assert FloatOf(JStr("0.00")) == Ok(0.0);
    LongContextBeatsShort(m1, m2);
  }

  /** Missing and empty pricing both sort as 999999, and the tie keeps input order. */
  lemma EqualPricesKeepInputOrder()
    ensures var m1 := ModelInfo("model1", "Model 1", None, None, true);
            var m2 := ModelInfo("model2", "Model 2", Some(1000), Some(map[]), true);
            SelectBestFreeModel([m1, m2]) == Ok(m1)
  {
    var m1 := ModelInfo("model1", "Model 1", None, None, true);
    var m2 := ModelInfo("model2", "Model 2", Some(1000), Some(map[]), true);
    var ms := [m1, m2];
    assert !AnyLongFree(ms);
    assert PriceKey(m1) == PriceKey(m2) == Ok(NoPriceKey);
    SelectionIsFirstCheapestEligible(ms);
    var i :| IsFirstCheapest(ms, i) && ms[i] == SelectBestFreeModel(ms).value;
    assert Eligible(ms[0], ms) && Eligible(ms[1], ms);
    if i == 1 {
      // m1 comes first and is eligible, so it would have to be strictly dearer
      assert false;
    }
  }

  // ---------------------------------------------------------------------------
  // As written: the records of schemas.py have no `is_free`

  /**
   * select_best_free_model over the records schemas.py declares. pydantic
   * drops the unknown `is_free` argument, so `m.is_free` raises
   * AttributeError on the first element; only an empty list reaches the
   * "No free models available" error.
   */
  function SelectBestFreeModelAsWritten(models: seq<SchemaModelInfo>): (r: Result<SchemaModelInfo, Exc>)
    ensures r.Err?
    ensures models == [] <==> r == Err(ValueError(NoFreeModels))
    ensures models != [] ==> r == Err(AttributeError)
  {
    if models == [] then Err(ValueError(NoFreeModels)) else Err(AttributeError)
  }

  /** The records schemas.py builds from the same values: `is_free` is dropped. */
  function Undeclared(models: seq<ModelInfo>): (r: seq<SchemaModelInfo>)
    ensures |r| == |models|
    ensures forall i :: 0 <= i < |models| ==>
              r[i] == SchemaModelInfo(models[i].id, models[i].name, models[i].contextLength, models[i].pricing)
  {
    seq(|models|, i requires 0 <= i < |models| =>
      SchemaModelInfo(models[i].id, models[i].name, models[i].contextLength, models[i].pricing))
  }

  /**
   * Wherever the intended selection picks a model, the selection as written,
   * over the same records without `is_free`, raises AttributeError instead.
   */
  lemma AsWrittenFailsWhereIntendedSucceeds(models: seq<ModelInfo>)
    requires SelectBestFreeModel(models).Ok?
    ensures SelectBestFreeModelAsWritten(Undeclared(models)) == Err(AttributeError)
  {
    assert SelectBestFreeModel(models).value in models;
  }
}
