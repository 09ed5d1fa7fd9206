/** validateDesignInput, the middleware that guards design creation and
    update. It runs a fixed sequence of checks over the JSON request body and
    answers 400 with the message of the first check that fails; otherwise it
    hands the request on. The skylight is never looked at. */
module DesignValidation {
  import opened Common

  /** A JSON value as the body parser produces it. */
  datatype Json =
    | JNull
    | JBool(b: bool)
    | JNum(n: real)
    | JStr(s: string)
    | JArr(items: seq<Json>)
    | JObj(fields: map<string, Json>)

  /** The parsed request body; a key that is absent reads as `undefined`. */
  type Body = map<string, Json>

  /** Property access `v[key]`; anything but an object holding the key gives `undefined`. */
  function Prop(v: Option<Json>, key: string): Option<Json>
  {
    if v.Some? && v.value.JObj? && key in v.value.fields then Some(v.value.fields[key]) else None
  }

  function Get(body: Body, key: string): Option<Json>
  {
    if key in body then Some(body[key]) else None
  }

  /** JavaScript truthiness of a possibly undefined value. */
  predicate Truthy(v: Option<Json>)
  {
    match v
    case None => false
    case Some(JNull) => false
    case Some(JBool(b)) => b
    case Some(JNum(n)) => n != 0.0
    case Some(JStr(s)) => s != ""
    case Some(JArr(_)) => true
    case Some(JObj(_)) => true
  }

  /** `typeof v === 'object'`: null, arrays and objects. */
  predicate IsObjectType(v: Option<Json>)
  {
    v.Some? && (v.value.JNull? || v.value.JArr? || v.value.JObj?)
  }

  predicate IsNumber(v: Option<Json>)
  {
    v.Some? && v.value.JNum?
  }

  // ---------------------------------------------------------------------
  // The individual checks, each true when the check passes

  predicate NameOk(name: Option<Json>)
  {
    Truthy(name) && name.value.JStr?
  }

  predicate ObjectOk(v: Option<Json>)
  {
    Truthy(v) && IsObjectType(v)
  }

  predicate SideNumbersOk(side: Option<Json>)
  {
    IsNumber(Prop(side, "width")) && IsNumber(Prop(side, "height"))
  }

  predicate SidePositiveOk(side: Option<Json>)
    requires SideNumbersOk(side)
  {
    !(Prop(side, "width").value.n <= 0.0 || Prop(side, "height").value.n <= 0.0)
  }

  predicate FractionOk(v: Option<Json>)
  {
    IsNumber(v) && !(v.value.n < 0.0 || v.value.n > 1.0)
  }

  const NameMessage: string := "Name is required and must be a string."
  const DimensionsMessage: string := "Dimensions are required and must be an object."
  const WwrMessage: string := "WWR is required and must be an object."
  const ShgcMessage: string := "SHGC must be a number between 0 and 1."

  function SideObjectMessage(d: Direction): string
  {
    DirectionName(d) + " dimensions are required and must be an object."
  }

  function SideNumbersMessage(d: Direction): string
  {
    DirectionName(d) + " width and height must be numbers."
  }

  function SidePositiveMessage(d: Direction): string
  {
    DirectionName(d) + " width and height must be positive numbers."
  }

  function FractionMessage(d: Direction): string
  {
    DirectionName(d) + " WWR must be between 0 and 1."
  }

  function Reject(message: string): Outcome
  {
    Respond(400, message)
  }

  // ---------------------------------------------------------------------
  // The middleware, in the order of its code

  /** The loop over the facades of `dimensions`, for the directions `ds`. */
  function CheckSides(dims: Option<Json>, ds: seq<Direction>): (o: Outcome)
    ensures o == Next <==> forall i :: 0 <= i < |ds| ==> SideValid(Prop(dims, DirectionName(ds[i])))
    ensures o != Next ==> exists i :: 0 <= i < |ds| && !SideValid(Prop(dims, DirectionName(ds[i])))
                                   && (|| o == Reject(SideObjectMessage(ds[i]))
                                       || o == Reject(SideNumbersMessage(ds[i]))
                                       || o == Reject(SidePositiveMessage(ds[i])))
  {
    if ds == [] then Next
    else
      var d := ds[0];
      var side := Prop(dims, DirectionName(d));
      SideValidIff(side);
      if !ObjectOk(side) then Reject(SideObjectMessage(d))
      else if !SideNumbersOk(side) then Reject(SideNumbersMessage(d))
      else if !SidePositiveOk(side) then Reject(SidePositiveMessage(d))
      else
        var o := CheckSides(dims, ds[1..]);
        assert forall i :: 1 <= i < |ds| ==> ds[i] == ds[1..][i - 1];
        o
  }

  /** The loop over the ratios of `wwr`, for the directions `ds`. */
  function CheckFractions(wwr: Option<Json>, ds: seq<Direction>): (o: Outcome)
    ensures o == Next <==> forall i :: 0 <= i < |ds| ==> InUnitInterval(Prop(wwr, DirectionName(ds[i])))
    ensures o != Next ==> exists i :: 0 <= i < |ds| && !InUnitInterval(Prop(wwr, DirectionName(ds[i])))
                                   && o == Reject(FractionMessage(ds[i]))
  {
    if ds == [] then Next
    else if !FractionOk(Prop(wwr, DirectionName(ds[0]))) then Reject(FractionMessage(ds[0]))
    else
      var o := CheckFractions(wwr, ds[1..]);
      assert forall i :: 1 <= i < |ds| ==> ds[i] == ds[1..][i - 1];
      o
  }

  function ValidateDesignInput(body: Body): (o: Outcome)
    ensures o == Next || (o.Respond? && o.status == 400)
  {
    var name, dimensions, wwr, shgc := Get(body, "name"), Get(body, "dimensions"), Get(body, "wwr"), Get(body, "shgc");
    if !NameOk(name) then Reject(NameMessage)
    else if !ObjectOk(dimensions) then Reject(DimensionsMessage)
    else
      var sides := CheckSides(dimensions, Directions);
      if sides != Next then sides
      else if !ObjectOk(wwr) then Reject(WwrMessage)
      else
        var fractions := CheckFractions(wwr, Directions);
        if fractions != Next then fractions
        else if !FractionOk(shgc) then Reject(ShgcMessage)
        else Next
  }

  // ---------------------------------------------------------------------
  // Reference: the checks as one flat, ordered list

  datatype Guard = Guard(passes: bool, message: string)

  function SideGuards(dims: Option<Json>, ds: seq<Direction>): seq<Guard>
  {
    if ds == [] then []
    else
      var side := Prop(dims, DirectionName(ds[0]));
      [Guard(ObjectOk(side), SideObjectMessage(ds[0]))]
      + ([Guard(SideNumbersOk(side), SideNumbersMessage(ds[0]))]
      + ([Guard(SideNumbersOk(side) && SidePositiveOk(side), SidePositiveMessage(ds[0]))]
      + SideGuards(dims, ds[1..])))
  }

  function FractionGuards(wwr: Option<Json>, ds: seq<Direction>): seq<Guard>
  {
    if ds == [] then []
    else [Guard(FractionOk(Prop(wwr, DirectionName(ds[0]))), FractionMessage(ds[0]))]
         + FractionGuards(wwr, ds[1..])
  }

  /** All checks in the order they run: name, dimensions, each facade
      north to west, the wwr object, each ratio north to west, shgc. */
  function Guards(body: Body): seq<Guard>
  {
    [Guard(NameOk(Get(body, "name")), NameMessage)]
    + ([Guard(ObjectOk(Get(body, "dimensions")), DimensionsMessage)]
    + (SideGuards(Get(body, "dimensions"), Directions)
    + ([Guard(ObjectOk(Get(body, "wwr")), WwrMessage)]
    + (FractionGuards(Get(body, "wwr"), Directions)
    + [Guard(FractionOk(Get(body, "shgc")), ShgcMessage)]))))
  }

  /** Answer with the first failing guard, or pass when none fails. */
  function FirstFailure(gs: seq<Guard>): (o: Outcome)
    ensures o == Next <==> forall i :: 0 <= i < |gs| ==> gs[i].passes
    ensures o != Next ==> exists i :: 0 <= i < |gs| && !gs[i].passes
                                   && (forall j :: 0 <= j < i ==> gs[j].passes)
                                   && o == Respond(400, gs[i].message)
  {
    if gs == [] then Next
    else if !gs[0].passes then Reject(gs[0].message)
    else
      var o := FirstFailure(gs[1..]);
      assert o != Next ==> exists i :: 1 <= i < |gs| && !gs[i].passes
                                     && (forall j :: 0 <= j < i ==> gs[j].passes)
                                     && o == Respond(400, gs[i].message) by {
        if o != Next {
          var k :| 0 <= k < |gs[1..]| && !gs[1..][k].passes
                   && (forall j :: 0 <= j < k ==> gs[1..][j].passes)
                   && o == Respond(400, gs[1..][k].message);
          assert forall j :: 0 <= j < k + 1 ==> gs[j].passes by {
            forall j | 0 <= j < k + 1 ensures gs[j].passes {
              if j > 0 { assert gs[j] == gs[1..][j - 1]; }
            }
          }
        }
      }
      o
  }

  lemma {:induction false} FirstFailureAppend(a: seq<Guard>, b: seq<Guard>)
    ensures FirstFailure(a + b) == if FirstFailure(a) != Next then FirstFailure(a) else FirstFailure(b)
  {
    if a != [] {
      assert (a + b)[1..] == a[1..] + b;
      FirstFailureAppend(a[1..], b);
    } else {
      assert a + b == b;
    }
  }

  lemma FirstFailureCons(g: Guard, rest: seq<Guard>)
    ensures FirstFailure([g] + rest) == if !g.passes then Reject(g.message) else FirstFailure(rest)
  {
    assert ([g] + rest)[1..] == rest;
  }

  lemma {:induction false} CheckSidesIsFirstFailure(dims: Option<Json>, ds: seq<Direction>)
    ensures CheckSides(dims, ds) == FirstFailure(SideGuards(dims, ds))
  {
    if ds != [] {
      var side := Prop(dims, DirectionName(ds[0]));
      var a := Guard(ObjectOk(side), SideObjectMessage(ds[0]));
      var b := Guard(SideNumbersOk(side), SideNumbersMessage(ds[0]));
      var c := Guard(SideNumbersOk(side) && SidePositiveOk(side), SidePositiveMessage(ds[0]));
      var rest := SideGuards(dims, ds[1..]);
      FirstFailureCons(a, [b] + ([c] + rest));
      FirstFailureCons(b, [c] + rest);
      FirstFailureCons(c, rest);
      CheckSidesIsFirstFailure(dims, ds[1..]);
    }
  }

  lemma {:induction false} CheckFractionsIsFirstFailure(wwr: Option<Json>, ds: seq<Direction>)
    ensures CheckFractions(wwr, ds) == FirstFailure(FractionGuards(wwr, ds))
  {
    if ds != [] {
      var head := [Guard(FractionOk(Prop(wwr, DirectionName(ds[0]))), FractionMessage(ds[0]))];
      FirstFailureAppend(head, FractionGuards(wwr, ds[1..]));
      CheckFractionsIsFirstFailure(wwr, ds[1..]);
    }
  }

  /** The middleware answers exactly as the first failing check of the
      ordered list, and passes exactly when every check passes. */
  lemma {:induction false} ValidateIsFirstFailure(body: Body)
    ensures ValidateDesignInput(body) == FirstFailure(Guards(body))
  {
    var dims, wwr := Get(body, "dimensions"), Get(body, "wwr");
    var name := Guard(NameOk(Get(body, "name")), NameMessage);
    var dimensions := Guard(ObjectOk(dims), DimensionsMessage);
    var ratios := Guard(ObjectOk(wwr), WwrMessage);
    var shgc := Guard(FractionOk(Get(body, "shgc")), ShgcMessage);
    var sides, fractions := SideGuards(dims, Directions), FractionGuards(wwr, Directions);
    var r3 := fractions + [shgc];
    var r2 := [ratios] + r3;
    var r1 := sides + r2;
    FirstFailureCons(name, [dimensions] + r1);
    FirstFailureCons(dimensions, r1);
    FirstFailureAppend(sides, r2);
    CheckSidesIsFirstFailure(dims, Directions);
    FirstFailureCons(ratios, r3);
    FirstFailureAppend(fractions, [shgc]);
    CheckFractionsIsFirstFailure(wwr, Directions);
    FirstFailureCons(shgc, []);
    assert [shgc] + [] == [shgc];
  }

  // ---------------------------------------------------------------------
  // What a body that passes looks like

  /** A well-formed design body: a non-empty string name; an object of
      facades, each an object with strictly positive numeric width and
      height; an object of ratios, each a number in [0, 1]; and an shgc in
      [0, 1]. Nothing is required of the skylight. */
  predicate ValidDesignBody(body: Body)
  {
    var dims, wwr := Get(body, "dimensions"), Get(body, "wwr");
    && "name" in body && body["name"].JStr? && body["name"].s != ""
    && ObjectOk(dims) && AllSidesValid(dims)
    && ObjectOk(wwr) && AllFractionsValid(wwr)
    && InUnitInterval(Get(body, "shgc"))
  }

  predicate AllSidesValid(dims: Option<Json>)
  {
    forall d: Direction :: SideValid(Prop(dims, DirectionName(d)))
  }

  predicate AllFractionsValid(wwr: Option<Json>)
  {
    forall d: Direction :: InUnitInterval(Prop(wwr, DirectionName(d)))
  }

  predicate SideValid(side: Option<Json>)
  {
    && side.Some? && side.value.JObj?
    && "width" in side.value.fields && side.value.fields["width"].JNum?
    && "height" in side.value.fields && side.value.fields["height"].JNum?
    && side.value.fields["width"].n > 0.0 && side.value.fields["height"].n > 0.0
  }

  predicate InUnitInterval(v: Option<Json>)
  {
    v.Some? && v.value.JNum? && 0.0 <= v.value.n <= 1.0
  }

  predicate AllPass(gs: seq<Guard>)
  {
    forall i :: 0 <= i < |gs| ==> gs[i].passes
  }

  lemma AllPassAppend(a: seq<Guard>, b: seq<Guard>)
    ensures AllPass(a + b) <==> AllPass(a) && AllPass(b)
  {
    if AllPass(a) && AllPass(b) {
      forall i | 0 <= i < |a + b| ensures (a + b)[i].passes {
        if i >= |a| { assert (a + b)[i] == b[i - |a|]; }
      }
    }
    if AllPass(a + b) {
      forall i | 0 <= i < |a| ensures a[i].passes {
        assert (a + b)[i] == a[i];
      }
      forall i | 0 <= i < |b| ensures b[i].passes {
        assert (a + b)[|a| + i] == b[i];
      }
    }
  }

  lemma AllPassCons(g: Guard, rest: seq<Guard>)
    ensures AllPass([g] + rest) <==> g.passes && AllPass(rest)
  {
    AllPassAppend([g], rest);
    assert [g][0] == g;
  }

  lemma SideValidIff(side: Option<Json>)
    ensures SideValid(side) <==> ObjectOk(side) && SideNumbersOk(side) && SidePositiveOk(side)
  {
  }

  lemma {:induction false} SideGuardsPass(dims: Option<Json>, ds: seq<Direction>)
    ensures AllPass(SideGuards(dims, ds))
        <==> forall i :: 0 <= i < |ds| ==> SideValid(Prop(dims, DirectionName(ds[i])))
  {
    if ds != [] {
      var side := Prop(dims, DirectionName(ds[0]));
      var a := Guard(ObjectOk(side), SideObjectMessage(ds[0]));
      var b := Guard(SideNumbersOk(side), SideNumbersMessage(ds[0]));
      var c := Guard(SideNumbersOk(side) && SidePositiveOk(side), SidePositiveMessage(ds[0]));
      var rest := SideGuards(dims, ds[1..]);
      AllPassCons(a, [b] + ([c] + rest));
      AllPassCons(b, [c] + rest);
      AllPassCons(c, rest);
      SideValidIff(side);
      SideGuardsPass(dims, ds[1..]);
      if forall i :: 0 <= i < |ds| ==> SideValid(Prop(dims, DirectionName(ds[i]))) {
        forall i | 0 <= i < |ds[1..]| ensures SideValid(Prop(dims, DirectionName(ds[1..][i]))) {
          assert ds[1..][i] == ds[i + 1];
        }
      }
    }
  }

  lemma {:induction false} FractionGuardsPass(wwr: Option<Json>, ds: seq<Direction>)
    ensures AllPass(FractionGuards(wwr, ds))
        <==> forall i :: 0 <= i < |ds| ==> InUnitInterval(Prop(wwr, DirectionName(ds[i])))
  {
    if ds != [] {
      AllPassCons(Guard(FractionOk(Prop(wwr, DirectionName(ds[0]))), FractionMessage(ds[0])),
                  FractionGuards(wwr, ds[1..]));
      FractionGuardsPass(wwr, ds[1..]);
      if forall i :: 0 <= i < |ds| ==> InUnitInterval(Prop(wwr, DirectionName(ds[i]))) {
        forall i | 0 <= i < |ds[1..]| ensures InUnitInterval(Prop(wwr, DirectionName(ds[1..][i]))) {
          assert ds[1..][i] == ds[i + 1];
        }
      }
    }
  }

  lemma SidesOverDirections(dims: Option<Json>)
    ensures AllPass(SideGuards(dims, Directions)) <==> AllSidesValid(dims)
  {
    SideGuardsPass(dims, Directions);
    if forall i :: 0 <= i < |Directions| ==> SideValid(Prop(dims, DirectionName(Directions[i]))) {
      forall d: Direction ensures SideValid(Prop(dims, DirectionName(d))) {
        assert Directions[IndexOf(d)] == d;
      }
    }
  }

  lemma FractionsOverDirections(wwr: Option<Json>)
    ensures AllPass(FractionGuards(wwr, Directions)) <==> AllFractionsValid(wwr)
  {
    FractionGuardsPass(wwr, Directions);
    if forall i :: 0 <= i < |Directions| ==> InUnitInterval(Prop(wwr, DirectionName(Directions[i]))) {
      forall d: Direction ensures InUnitInterval(Prop(wwr, DirectionName(d))) {
        assert Directions[IndexOf(d)] == d;
      }
    }
  }

  /** Every check passes exactly when the body is well formed. */
  lemma {:induction false} AllGuardsPass(body: Body)
    ensures AllPass(Guards(body)) <==> ValidDesignBody(body)
  {
    var dims, wwr := Get(body, "dimensions"), Get(body, "wwr");
    var name := Guard(NameOk(Get(body, "name")), NameMessage);
    var dimensions := Guard(ObjectOk(dims), DimensionsMessage);
    var ratios := Guard(ObjectOk(wwr), WwrMessage);
    var shgc := Guard(FractionOk(Get(body, "shgc")), ShgcMessage);
    var sides, fractions := SideGuards(dims, Directions), FractionGuards(wwr, Directions);
    var r3 := fractions + [shgc];
    var r2 := [ratios] + r3;
    var r1 := sides + r2;
    AllPassCons(name, [dimensions] + r1);
    AllPassCons(dimensions, r1);
    AllPassAppend(sides, r2);
    AllPassCons(ratios, r3);
    AllPassAppend(fractions, [shgc]);
    AllPassCons(shgc, []);
    assert [shgc] + [] == [shgc];
    SidesOverDirections(dims);
    FractionsOverDirections(wwr);
  }

  /** The request reaches the next handler if and only if the body is well formed. */
  lemma {:induction false} ValidatePassesIffValid(body: Body)
    ensures ValidateDesignInput(body) == Next <==> ValidDesignBody(body)
  {
    ValidateIsFirstFailure(body);
    AllGuardsPass(body);
  }

  /** Whatever the skylight holds, or when it is absent, the answer is the same. */
  lemma SkylightNeverInspected(body: Body, v: Json)
    ensures ValidateDesignInput(body["skylight" := v]) == ValidateDesignInput(body)
    ensures ValidateDesignInput(body - {"skylight"}) == ValidateDesignInput(body)
  {
    assert Get(body["skylight" := v], "name") == Get(body, "name");
    assert Get(body["skylight" := v], "dimensions") == Get(body, "dimensions");
    assert Get(body["skylight" := v], "wwr") == Get(body, "wwr");
    assert Get(body["skylight" := v], "shgc") == Get(body, "shgc");
    assert Get(body - {"skylight"}, "name") == Get(body, "name");
    assert Get(body - {"skylight"}, "dimensions") == Get(body, "dimensions");
    assert Get(body - {"skylight"}, "wwr") == Get(body, "wwr");
    assert Get(body - {"skylight"}, "shgc") == Get(body, "shgc");
  }

  /** The name check rejects a missing, empty or non-string name, yet lets a
      name made only of spaces through. */
  lemma NameCheckCases()
    ensures !NameOk(None) && !NameOk(Some(JStr(""))) && !NameOk(Some(JNum(1.0)))
    ensures NameOk(Some(JStr("   ")))
  {
  }

  /** Widths and heights must be strictly positive; ratios and shgc may sit on
      either end of [0, 1]. */
  lemma BoundaryCases()
    ensures !SidePositiveOk(Some(JObj(map["width" := JNum(0.0), "height" := JNum(1.0)])))
    ensures FractionOk(Some(JNum(0.0))) && FractionOk(Some(JNum(1.0)))
    ensures !FractionOk(Some(JNum(1.5))) && !FractionOk(Some(JStr("0.5")))
  {
  }
}
