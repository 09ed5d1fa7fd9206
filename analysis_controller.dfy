/** The analysis handlers: analyse one design in one city, compare several
    designs in one city, and rank one design across the four cities. The
    document store is a sequence of (id, design) records with distinct ids,
    read in its natural order. */
module AnalysisController {
  import opened Common
  import opened HeatGainCalculator
  import AnalysisValidation

  // ---------------------------------------------------------------------
  // The store

  datatype StoredDesign = StoredDesign(id: string, design: Design)

  type Store = seq<StoredDesign>

  /** The store never holds two records under one id. */
  predicate UniqueIds(store: Store)
  {
    forall i, j :: 0 <= i < j < |store| ==> store[i].id != store[j].id
  }

  function StoreIds(store: Store): set<string>
  {
    if store == [] then {} else {store[0].id} + StoreIds(store[1..])
  }

  lemma {:induction false} StoreIdsAt(store: Store, id: string)
    ensures id in StoreIds(store) <==> exists k :: 0 <= k < |store| && store[k].id == id
  {
    if store != [] {
      StoreIdsAt(store[1..], id);
      if exists k :: 0 <= k < |store| && store[k].id == id {
        var k :| 0 <= k < |store| && store[k].id == id;
        if k > 0 { assert store[1..][k - 1].id == id; }
      }
      if exists k :: 0 <= k < |store[1..]| && store[1..][k].id == id {
        var k :| 0 <= k < |store[1..]| && store[1..][k].id == id;
        assert store[k + 1].id == id;
      }
    }
  }

  /** The record stored under the key `key`, compared exactly. */
  function Fetch(store: Store, key: string): (r: Option<Design>)
    ensures r.Some? <==> key in StoreIds(store)
    ensures r.Some? ==> StoredDesign(key, r.value) in store
  {
    if store == [] then None
    else if store[0].id == key then Some(store[0].design)
    else
      var r := Fetch(store[1..], key);
      assert r.Some? ==> StoredDesign(key, r.value) in store by {
        if r.Some? {
          var k :| 0 <= k < |store[1..]| && store[1..][k] == StoredDesign(key, r.value);
          assert store[k + 1] == StoredDesign(key, r.value);
        }
      }
      r
  }

  /** With distinct ids, the record at any position is the one fetched under its id. */
  lemma {:induction false} FetchAt(store: Store, i: nat)
    requires UniqueIds(store) && i < |store|
    ensures Fetch(store, store[i].id) == Some(store[i].design)
  {
    if i > 0 {
      var rest := store[1..];
      assert UniqueIds(rest) by {
        forall p, q | 0 <= p < q < |rest| ensures rest[p].id != rest[q].id {
          assert rest[p] == store[p + 1] && rest[q] == store[q + 1];
        }
      }
      assert rest[i - 1] == store[i];
      FetchAt(rest, i - 1);
    }
  }

  /** The form in which the store keeps ids: 24 lower-case hexadecimal digits. */
  predicate IsCanonicalId(s: string)
  {
    |s| == 24 && forall i :: 0 <= i < |s| ==> '0' <= s[i] <= '9' || 'a' <= s[i] <= 'f'
  }

  function LowerHexDigit(c: char): char
  {
    if 'A' <= c <= 'F' then (c as int + 32) as char else c
  }

  /** Mongoose's cast of a string to an ObjectId: 24 hexadecimal digits of
      either case name the id written in lower case; anything else fails. */
  function CastId(id: string): (r: Option<string>)
    ensures r.Some? <==> AnalysisValidation.IsObjectIdText(id)
    ensures r.Some? ==> IsCanonicalId(r.value)
    ensures IsCanonicalId(id) ==> r == Some(id)
    ensures r.Some? ==> |r.value| == |id| && forall i :: 0 <= i < |id| ==> r.value[i] == LowerHexDigit(id[i])
  {
    if AnalysisValidation.IsObjectIdText(id) then
      var key := seq(|id|, i requires 0 <= i < |id| => LowerHexDigit(id[i]));
      assert IsCanonicalId(id) ==> key == id by {
        if IsCanonicalId(id) {
          assert forall i :: 0 <= i < |id| ==> key[i] == id[i];
        }
      }
      Some(key)
    else None
  }

  /** The message of the CastError Mongoose throws for an id it cannot cast. */
  function CastMessage(id: string): string
  {
    "Cast to ObjectId failed for value \"" + id + "\" (type string) at path \"_id\" for model \"BuildingDesign\""
  }

  /** `findById`: the id is cast first (a CastError when that fails); then
      the design stored under the cast id, if there is one. */
  function FindById(store: Store, id: string): (r: Result<Option<Design>>)
    ensures r.Failure? <==> !AnalysisValidation.IsObjectIdText(id)
    ensures r.Failure? ==> r.error == CastMessage(id)
    ensures r.Success? ==> (r.value.Some? <==> CastId(id).value in StoreIds(store))
    ensures r.Success? && r.value.Some? ==> StoredDesign(CastId(id).value, r.value.value) in store
  {
    match CastId(id)
    case None => Failure(CastMessage(id))
    case Some(key) => Success(Fetch(store, key))
  }

  /** Any spelling of a stored id that casts to it, upper-case digits
      included, finds the design stored under it. */
  lemma FoundUnderAnySpelling(store: Store, i: nat, id: string)
    requires UniqueIds(store) && i < |store|
    requires CastId(id) == Some(store[i].id)
    ensures FindById(store, id) == Success(Some(store[i].design))
  {
    FetchAt(store, i);
  }

  function UpperHexDigit(c: char): char
  {
    if 'a' <= c <= 'f' then (c as int - 32) as char else c
  }

  /** A stored id with its letters written in upper case, as
      `64B7F0C2A1D3E4F5A6B7C8D9` for `64b7f0c2a1d3e4f5a6b7c8d9`. */
  function UpperCaseSpelling(key: string): (r: string)
    ensures |r| == |key|
  {
    seq(|key|, i requires 0 <= i < |key| => UpperHexDigit(key[i]))
  }

  /** The upper-case spelling of a stored id finds the design stored under it. */
  lemma UpperCaseIdFound(store: Store, i: nat)
    requires UniqueIds(store) && i < |store| && IsCanonicalId(store[i].id)
    ensures FindById(store, UpperCaseSpelling(store[i].id)) == Success(Some(store[i].design))
  {
    var key := store[i].id;
    var upper := UpperCaseSpelling(key);
    assert AnalysisValidation.IsObjectIdText(upper) by {
      forall k | 0 <= k < |upper| ensures AnalysisValidation.IsHexDigit(upper[k]) {
        assert upper[k] == UpperHexDigit(key[k]);
      }
    }
    var cast := CastId(upper).value;
    assert cast == seq(|upper|, k requires 0 <= k < |upper| => LowerHexDigit(upper[k]));
    assert forall k :: 0 <= k < |key| ==> cast[k] == key[k];
    assert cast == key;
    FoundUnderAnySpelling(store, i, upper);
  }

  /** The position of the first id that cannot be cast, or the length of
      the list when every id can. */
  function FirstUncastable(ids: seq<string>): (k: nat)
    ensures k <= |ids|
    ensures forall i :: 0 <= i < k ==> CastId(ids[i]).Some?
    ensures k < |ids| ==> CastId(ids[k]).None?
  {
    if ids == [] || CastId(ids[0]).None? then 0
    else
      var k := FirstUncastable(ids[1..]);
      assert forall i :: 1 <= i < k + 1 ==> ids[i] == ids[1..][i - 1];
      k + 1
  }

  /** Casts every id of a `$in` list; the first id that cannot be cast makes
      the query fail with its CastError. */
  function CastAll(ids: seq<string>): (r: Result<seq<string>>)
    ensures r.Success? <==> forall i :: 0 <= i < |ids| ==> CastId(ids[i]).Some?
    ensures r.Success? ==> |r.value| == |ids| && forall i :: 0 <= i < |ids| ==> Some(r.value[i]) == CastId(ids[i])
    ensures r.Failure? ==> exists i :: 0 <= i < |ids| && CastId(ids[i]).None?
                                      && (forall j :: 0 <= j < i ==> CastId(ids[j]).Some?)
                                      && r.error == CastMessage(ids[i])
  {
    var k := FirstUncastable(ids);
    if k < |ids| then Failure(CastMessage(ids[k]))
    else Success(seq(|ids|, i requires 0 <= i < |ids| => CastId(ids[i]).value))
  }

  /** The designs whose key is among `keys`, each once, in store order. */
  function FetchIn(store: Store, keys: seq<string>): (r: seq<Design>)
    ensures |r| <= |store|
  {
    if store == [] then []
    else (if store[0].id in keys then [store[0].design] else []) + FetchIn(store[1..], keys)
  }

  /** `find({ _id: { $in: ids } })`: every id is cast (a CastError when one
      cannot be); then the designs whose id is among the cast ids. */
  function FindIn(store: Store, ids: seq<string>): (r: Result<seq<Design>>)
    ensures r.Failure? <==> exists i :: 0 <= i < |ids| && !AnalysisValidation.IsObjectIdText(ids[i])
    ensures r.Success? ==> |r.value| <= |store|
  {
    match CastAll(ids)
    case Failure(e) => Failure(e)
    case Success(keys) => Success(FetchIn(store, keys))
  }

  /** The query's answer follows the store's order: a store split in two
      answers with the first part's designs and then the second's. */
  lemma {:induction false} FetchInAppend(s: Store, t: Store, keys: seq<string>)
    ensures FetchIn(s + t, keys) == FetchIn(s, keys) + FetchIn(t, keys)
  {
    if s == [] {
      assert s + t == t;
    } else {
      var u := s + t;
      var head := if s[0].id in keys then [s[0].design] else [];
      assert u[0] == s[0];
      assert u[1..] == s[1..] + t;
      assert FetchIn(u, keys) == head + FetchIn(u[1..], keys);
      assert FetchIn(s, keys) == head + FetchIn(s[1..], keys);
      FetchInAppend(s[1..], t, keys);
      assert head + (FetchIn(s[1..], keys) + FetchIn(t, keys))
          == (head + FetchIn(s[1..], keys)) + FetchIn(t, keys);
    }
  }

  /** A one-record store answers with its design exactly when its id was requested. */
  lemma FetchInSingle(rec: StoredDesign, keys: seq<string>)
    ensures FetchIn([rec], keys) == if rec.id in keys then [rec.design] else []
  {
    assert [rec][1..] == [];
  }

  /** The query returns exactly the designs of the records whose id was requested. */
  lemma {:induction false} FetchInMembers(store: Store, keys: seq<string>, d: Design)
    ensures d in FetchIn(store, keys)
        <==> exists k :: 0 <= k < |store| && store[k].id in keys && store[k].design == d
  {
    if store != [] {
      var rest := store[1..];
      FetchInMembers(rest, keys, d);
      var head := if store[0].id in keys then [store[0].design] else [];
      assert FetchIn(store, keys) == head + FetchIn(rest, keys);
      if exists k :: 0 <= k < |store| && store[k].id in keys && store[k].design == d {
        var k :| 0 <= k < |store| && store[k].id in keys && store[k].design == d;
        if k > 0 {
          assert rest[k - 1] == store[k];
        }
      }
      if exists k :: 0 <= k < |rest| && rest[k].id in keys && rest[k].design == d {
        var k :| 0 <= k < |rest| && rest[k].id in keys && rest[k].design == d;
        assert store[k + 1] == rest[k];
      }
    }
  }

  /** Once every id casts, `find` returns exactly the designs stored under an
      ObjectId that one of the requested ids casts to. */
  lemma FindInMembers(store: Store, ids: seq<string>, d: Design)
    requires FindIn(store, ids).Success?
    ensures d in FindIn(store, ids).value
        <==> exists k :: 0 <= k < |store| && store[k].design == d
                         && exists i :: 0 <= i < |ids| && CastId(ids[i]) == Some(store[k].id)
  {
    var keys := CastAll(ids).value;
    assert FindIn(store, ids).value == FetchIn(store, keys);
    FetchInMembers(store, keys, d);
    forall k | 0 <= k < |store|
      ensures store[k].id in keys <==> exists i :: 0 <= i < |ids| && CastId(ids[i]) == Some(store[k].id)
    {
      if store[k].id in keys {
        var i :| 0 <= i < |keys| && keys[i] == store[k].id;
        assert CastId(ids[i]) == Some(keys[i]);
      }
    }
  }

  /** `find` answers in the store's order: a store split in two answers with
      the first part's designs and then the second's. */
  lemma FindInOrder(s: Store, t: Store, ids: seq<string>)
    requires FindIn(s + t, ids).Success?
    ensures FindIn(s, ids).Success? && FindIn(t, ids).Success?
    ensures FindIn(s + t, ids).value == FindIn(s, ids).value + FindIn(t, ids).value
  {
    FetchInAppend(s, t, CastAll(ids).value);
  }

  predicate Distinct(ids: seq<string>)
  {
    forall i, j :: 0 <= i < j < |ids| ==> ids[i] != ids[j]
  }

  function Elements(ids: seq<string>): set<string>
  {
    set x | x in ids
  }

  lemma {:induction false} FetchInCount(store: Store, ids: seq<string>)
    requires UniqueIds(store)
    ensures |FetchIn(store, ids)| == |Elements(ids) * StoreIds(store)|
  {
    if store == [] {
      assert Elements(ids) * StoreIds(store) == {};
    } else {
      var rest := store[1..];
      var a := Elements(ids);
      assert UniqueIds(rest) by {
        forall i, j | 0 <= i < j < |rest| ensures rest[i].id != rest[j].id {
          assert rest[i] == store[i + 1] && rest[j] == store[j + 1];
        }
      }
      FetchInCount(rest, ids);
      assert store[0].id !in StoreIds(rest) by {
        forall k | 0 <= k < |rest| ensures rest[k].id != store[0].id {
          assert rest[k] == store[k + 1];
        }
        StoreIdsAt(rest, store[0].id);
      }
      IntersectionSplit(a, store[0].id, StoreIds(rest));
    }
  }

  lemma IntersectionSplit(a: set<string>, x: string, b: set<string>)
    requires x !in b
    ensures |a * ({x} + b)| == (if x in a then 1 else 0) + |a * b|
  {
    if x in a {
      assert a * ({x} + b) == {x} + a * b;
    } else {
      assert a * ({x} + b) == a * b;
    }
  }

  lemma {:induction false} ElementsCount(ids: seq<string>)
    ensures |Elements(ids)| <= |ids|
    ensures |Elements(ids)| == |ids| <==> Distinct(ids)
  {
    if ids != [] {
      var rest := ids[1..];
      ElementsCount(rest);
      assert Elements(ids) == {ids[0]} + Elements(rest) by {
        assert forall x :: x in ids <==> x == ids[0] || x in rest;
      }
      if ids[0] in rest {
        assert Elements(ids) == Elements(rest);
        var k :| 0 <= k < |rest| && rest[k] == ids[0];
        assert ids[k + 1] == ids[0];
      } else {
        assert Distinct(ids) <==> Distinct(rest) by {
          if Distinct(rest) {
            forall i, j | 0 <= i < j < |ids| ensures ids[i] != ids[j] {
              if i == 0 { assert ids[j] == rest[j - 1]; }
              else { assert ids[i] == rest[i - 1] && ids[j] == rest[j - 1]; }
            }
          }
          if Distinct(ids) {
            forall i, j | 0 <= i < j < |rest| ensures rest[i] != rest[j] {
              assert rest[i] == ids[i + 1] && rest[j] == ids[j + 1];
            }
          }
        }
      }
    } else {
      assert Elements(ids) == {};
    }
  }

  lemma IntersectionCount(a: set<string>, b: set<string>)
    ensures |a * b| <= |a|
    ensures |a * b| == |a| <==> a <= b
  {
    assert a == (a * b) + (a - b);
    assert (a * b) * (a - b) == {};
    if !(a <= b) {
      var x :| x in a && x !in b;
      assert x in a - b;
    }
  }

  /** The count check over cast keys: as many designs as keys exactly when
      the keys are distinct and each is stored. */
  lemma {:induction false} FetchAllOrNothing(store: Store, keys: seq<string>)
    requires UniqueIds(store)
    ensures |FetchIn(store, keys)| <= |keys|
    ensures |FetchIn(store, keys)| == |keys|
        <==> Distinct(keys) && forall i :: 0 <= i < |keys| ==> Fetch(store, keys[i]).Some?
  {
    FetchInCount(store, keys);
    ElementsCount(keys);
    IntersectionCount(Elements(keys), StoreIds(store));
    if forall i :: 0 <= i < |keys| ==> Fetch(store, keys[i]).Some? {
      forall x | x in Elements(keys) ensures x in StoreIds(store) {
        var k :| 0 <= k < |keys| && keys[k] == x;
        assert Fetch(store, keys[k]).Some?;
      }
    }
    if Elements(keys) <= StoreIds(store) {
      forall i | 0 <= i < |keys| ensures Fetch(store, keys[i]).Some? {
        assert keys[i] in Elements(keys);
      }
    }
  }

  /** The comparison's count check succeeds exactly when no two requested
      ids name the same ObjectId (spellings that differ only in case do) and
      every one of them names a stored design. */
  lemma AllOrNothing(store: Store, ids: seq<string>)
    requires UniqueIds(store)
    requires FindIn(store, ids).Success?
    ensures |FindIn(store, ids).value| <= |ids|
    ensures |FindIn(store, ids).value| == |ids|
        <==> && (forall i, j :: 0 <= i < j < |ids| ==> CastId(ids[i]) != CastId(ids[j]))
             && (forall i :: 0 <= i < |ids| ==> FindById(store, ids[i]) != Success(None))
  {
    var keys := CastAll(ids).value;
    FetchAllOrNothing(store, keys);
    assert Distinct(keys) <==> forall i, j :: 0 <= i < j < |ids| ==> CastId(ids[i]) != CastId(ids[j]) by {
      assert forall i :: 0 <= i < |ids| ==> CastId(ids[i]) == Some(keys[i]);
    }
    assert forall i :: 0 <= i < |ids| ==> FindById(store, ids[i]) == Success(Fetch(store, keys[i])) by {
      assert forall i :: 0 <= i < |ids| ==> CastId(ids[i]) == Some(keys[i]);
    }
  }

  // ---------------------------------------------------------------------
  // Responses

  datatype Comparison = Comparison(design: Design, analysis: Analysis)

  /** One city's line of the ranking; `rank` is attached after sorting. */
  datatype Entry =
    | Priced(city: string, coolingCost: real, rank: Option<nat>)
    | Failed(city: string, error: string, rank: Option<nat>)

  datatype Payload =
    | Message(message: string, error: Option<string>)
    | Analyzed(design: Design, analysis: Analysis)
    | Compared(comparisonResults: seq<Comparison>)
    | Ranked(design: Design, cityRankings: seq<Entry>)

  datatype Response = Response(status: int, payload: Payload)

  /** A request field that JavaScript finds truthy: present and non-empty. */
  predicate Present(v: Option<string>)
  {
    v.Some? && v.value != ""
  }

  const DesignNotFound: string := "Building design not found"

  // ---------------------------------------------------------------------
  // analyzeDesign

  const AnalyzeFailed: string := "Error analyzing design"

  /** Both fields are required before any lookup; an id Mongoose cannot cast
      throws a CastError and an unknown city makes the estimator throw, both
      caught as 500; an unknown id is 404; otherwise 200 with the design and
      its analysis. */
  method AnalyzeDesign(store: Store, designId: Option<string>, city: Option<string>) returns (res: Response)
    ensures !Present(designId) || !Present(city)
            ==> res == Response(400, Message("designId and city are required", None))
    ensures Present(designId) && Present(city) && FindById(store, designId.value).Failure?
            ==> res == Response(500, Message(AnalyzeFailed, Some(CastMessage(designId.value))))
    ensures Present(designId) && Present(city) && FindById(store, designId.value) == Success(None)
            ==> res == Response(404, Message(DesignNotFound, None))
    ensures Present(designId) && Present(city) && FindById(store, designId.value).Success?
            && FindById(store, designId.value).value.Some?
            ==> var d := FindById(store, designId.value).value.value;
                res == match CityOf(city.value)
                       case None => Response(500, Message(AnalyzeFailed, Some(InvalidCityMessage)))
                       case Some(c) => Response(200, Analyzed(d, AnalysisFor(d, c)))
  {
    if !Present(designId) || !Present(city) {
      return Response(400, Message("designId and city are required", None));
    }
    var found := FindById(store, designId.value);
    if found.Failure? {
      return Response(500, Message(AnalyzeFailed, Some(found.error)));
    }
    if found.value.None? {
      return Response(404, Message(DesignNotFound, None));
    }
    var design := found.value.value;
    var result := CalculateHeatGain(design, city.value);
    match result
    case Failure(e) =>
      res := Response(500, Message(AnalyzeFailed, Some(e)));
    case Success(a) =>
      res := Response(200, Analyzed(design, a));
  }

  /** The route `POST /calculate` with its guard as intended (the city list
      in scope): the guard reads the query string, the handler the body, so
      once the guard passes every answer is the handler's. */
  method CalculateRoute(query: AnalysisValidation.Query, store: Store,
                        designId: Option<string>, city: Option<string>) returns (res: Response)
    ensures AnalysisValidation.ValidateAnalysisInputIntended(query).Respond?
            ==> var o := AnalysisValidation.ValidateAnalysisInputIntended(query);
                res == Response(o.status, Message(o.message, None))
    ensures AnalysisValidation.ValidateAnalysisInputIntended(query) == Next ==>
      && (!Present(designId) || !Present(city)
          ==> res == Response(400, Message("designId and city are required", None)))
      && (Present(designId) && Present(city) && FindById(store, designId.value).Failure?
          ==> res == Response(500, Message(AnalyzeFailed, Some(CastMessage(designId.value)))))
      && (Present(designId) && Present(city) && FindById(store, designId.value) == Success(None)
          ==> res == Response(404, Message(DesignNotFound, None)))
      && (Present(designId) && Present(city) && FindById(store, designId.value).Success?
          && FindById(store, designId.value).value.Some?
          ==> var d := FindById(store, designId.value).value.value;
              res == match CityOf(city.value)
                     case None => Response(500, Message(AnalyzeFailed, Some(InvalidCityMessage)))
                     case Some(c) => Response(200, Analyzed(d, AnalysisFor(d, c))))
  {
    var o := AnalysisValidation.ValidateAnalysisInputIntended(query);
    if o.Respond? {
      return Response(o.status, Message(o.message, None));
    }
    res := AnalyzeDesign(store, designId, city);
  }

  /** The route `POST /calculate` with its guard as written: the guard
      answers 400 or throws, and Express's default error handler turns the
      throw into a 500 page carrying the error; the handler is never
      reached, so no request gets an analysis. */
  method CalculateRouteAsWritten(query: AnalysisValidation.Query) returns (res: Response)
    ensures AnalysisValidation.ValidateAnalysisInput(query).Respond?
            ==> var o := AnalysisValidation.ValidateAnalysisInput(query);
                res == Response(o.status, Message(o.message, None))
    ensures AnalysisValidation.ValidateAnalysisInput(query).Throws?
            ==> res == Response(500, Message(AnalysisValidation.ValidateAnalysisInput(query).error, None))
    ensures res.status == 400 || res.status == 500
  {
    var o := AnalysisValidation.ValidateAnalysisInput(query);
    match o
    case Respond(status, message) =>
      res := Response(status, Message(message, None));
    case Throws(error) =>
      res := Response(500, Message(error, None));
  }

  // ---------------------------------------------------------------------
  // compareDesigns

  /** The id list the handler starts from: an array is taken as it is, a
      string is split on commas. */
  function RawIds(p: AnalysisValidation.Param): (r: seq<string>)
    ensures p.QArr? ==> r == p.items
    ensures p.QStr? ==> |r| >= 1 && AnalysisValidation.Join(r) == p.s
                        && forall i :: 0 <= i < |r| ==> ',' !in r[i]
  {
    match p
    case QArr(items) => items
    case QStr(s) => AnalysisValidation.JoinSplit(s); AnalysisValidation.Split(s)
  }

  /** Percent-decodes every id with `decode`; the first id it rejects makes
      the whole decoding fail. */
  function DecodeAll(ids: seq<string>, decode: string -> Option<string>): (r: Option<seq<string>>)
    ensures r.None? <==> exists i :: 0 <= i < |ids| && decode(ids[i]).None?
    ensures r.Some? ==> |r.value| == |ids|
                        && forall i :: 0 <= i < |ids| ==> Some(r.value[i]) == decode(ids[i])
  {
    if ids == [] then Some([])
    else
      var head, tail := decode(ids[0]), DecodeAll(ids[1..], decode);
      if head.None? || tail.None? then
        assert tail.None? ==> exists i :: 1 <= i < |ids| && decode(ids[i]).None? by {
          if tail.None? {
            var k :| 0 <= k < |ids[1..]| && decode(ids[1..][k]).None?;
            assert ids[k + 1] == ids[1..][k];
          }
        }
        None
      else
        var r := [head.value] + tail.value;
        assert forall i :: 1 <= i < |ids| ==> ids[i] == ids[1..][i - 1];
        Some(r)
  }

  /** One comparison line per fetched design, in the store's order. */
  function Comparisons(designs: seq<Design>, c: City): (r: seq<Comparison>)
    ensures |r| == |designs|
    ensures forall i :: 0 <= i < |r| ==> r[i] == Comparison(designs[i], AnalysisFor(designs[i], c))
  {
    seq(|designs|, i requires 0 <= i < |designs| => Comparison(designs[i], AnalysisFor(designs[i], c)))
  }

  const CityRequired: string := "City is required for comparison."
  const TwoIdsRequired: string := "At least two valid designIds are required for comparison."
  const SomeNotFound: string := "One or more designs not found."
  const CompareFailed: string := "Error comparing designs"
  const SplitOfUndefined: string := "Cannot read properties of undefined (reading 'split')"
  const UriMalformed: string := "URI malformed"

  /** The `map(decodeURIComponent)` over the ids: the first id `decode`
      rejects throws; otherwise every id decoded, in order. */
  method DecodeIds(ids: seq<string>, decode: string -> Option<string>) returns (r: Option<seq<string>>)
    ensures r == DecodeAll(ids, decode)
  {
    var decoded: seq<string> := [];
    for i := 0 to |ids|
      invariant |decoded| == i
      invariant forall j :: 0 <= j < i ==> Some(decoded[j]) == decode(ids[j])
    {
      var d := decode(ids[i]);
      if d.None? {
        return None;
      }
      decoded := decoded + [d.value];
    }
    var checked := DecodeAll(ids, decode);
    assert checked.Some?;
    assert forall j :: 0 <= j < |decoded| ==> checked.value[j] == decoded[j];
    assert checked.value == decoded;
    r := Some(decoded);
  }

  /** The loop analysing each fetched design in the city: a city the
      estimator does not know throws on the first design; otherwise one
      comparison line per design, in order. */
  method AnalyzeAll(designs: seq<Design>, city: string) returns (r: Result<seq<Comparison>>)
    ensures CityOf(city).None? ==> r == if designs == [] then Success([]) else Failure(InvalidCityMessage)
    ensures CityOf(city).Some? ==> r == Success(Comparisons(designs, CityOf(city).value))
  {
    var results: seq<Comparison> := [];
    for i := 0 to |designs|
      invariant CityOf(city).None? ==> i == 0 && results == []
      invariant CityOf(city).Some? ==> results == Comparisons(designs[..i], CityOf(city).value)
    {
      var a := CalculateHeatGain(designs[i], city);
      if a.Failure? {
        return Failure(a.error);
      }
      results := results + [Comparison(designs[i], a.value)];
    }
    assert designs[..|designs|] == designs;
    r := Success(results);
  }

  /** compareDesigns: the city is required; the ids are split (unless they
      already are an array) and decoded; fewer than two is 400; an id that
      cannot be cast to an ObjectId makes the query throw (500); the store
      must return one design per requested id (404 otherwise); then each
      fetched design is analysed, and a city the estimator does not know
      makes the first analysis throw (500). */
  method CompareDesigns(store: Store, city: Option<string>, designIds: Option<AnalysisValidation.Param>,
                        decode: string -> Option<string>) returns (res: Response)
    ensures !Present(city) ==> res == Response(400, Message(CityRequired, None))
    ensures Present(city) && designIds.None? ==> res == Response(500, Message(CompareFailed, Some(SplitOfUndefined)))
    ensures Present(city) && designIds.Some? ==>
      var decoded := DecodeAll(RawIds(designIds.value), decode);
      if decoded.None? then res == Response(500, Message(CompareFailed, Some(UriMalformed)))
      else if |decoded.value| < 2 then res == Response(400, Message(TwoIdsRequired, None))
      else
        var found := FindIn(store, decoded.value);
        if found.Failure? then res == Response(500, Message(CompareFailed, Some(found.error)))
        else if |found.value| != |decoded.value| then res == Response(404, Message(SomeNotFound, None))
        else res == match CityOf(city.value)
                    case None => Response(500, Message(CompareFailed, Some(InvalidCityMessage)))
                    case Some(c) => Response(200, Compared(Comparisons(found.value, c)))
  {
    if !Present(city) {
      return Response(400, Message(CityRequired, None));
    }
    if designIds.None? {
      return Response(500, Message(CompareFailed, Some(SplitOfUndefined)));
    }
    var decoded := DecodeIds(RawIds(designIds.value), decode);
    if decoded.None? {
      return Response(500, Message(CompareFailed, Some(UriMalformed)));
    }
    if |decoded.value| < 2 {
      return Response(400, Message(TwoIdsRequired, None));
    }
    var found := FindIn(store, decoded.value);
    if found.Failure? {
      return Response(500, Message(CompareFailed, Some(found.error)));
    }
    var designs := found.value;
    if |designs| != |decoded.value| {
      return Response(404, Message(SomeNotFound, None));
    }
    var results := AnalyzeAll(designs, city.value);
    match results
    case Failure(e) =>
      res := Response(500, Message(CompareFailed, Some(e)));
    case Success(rs) =>
      res := Response(200, Compared(rs));
  }

  /** A request naming the same design twice, in any spelling, is
      answered 404, never with a shorter list. */
  lemma RepeatedIdNotFound(store: Store, ids: seq<string>)
    requires UniqueIds(store)
    requires FindIn(store, ids).Success?
    requires exists i, j :: 0 <= i < j < |ids| && CastId(ids[i]) == CastId(ids[j])
    ensures |FindIn(store, ids).value| != |ids|
  {
    AllOrNothing(store, ids);
  }

  /** A request with one id the store does not hold is answered 404. */
  lemma MissingIdNotFound(store: Store, ids: seq<string>, k: nat)
    requires UniqueIds(store)
    requires FindIn(store, ids).Success?
    requires k < |ids| && FindById(store, ids[k]) == Success(None)
    ensures |FindIn(store, ids).value| != |ids|
  {
    AllOrNothing(store, ids);
  }

  /** In a 200 answer of the comparison, every line's design is stored under
      one of the requested ids, and the lines follow the designs `find`
      returned, in the store's order. */
  lemma ComparedDesignsRequested(store: Store, ids: seq<string>, c: City, j: nat)
    requires FindIn(store, ids).Success?
    requires j < |Comparisons(FindIn(store, ids).value, c)|
    ensures Comparisons(FindIn(store, ids).value, c)[j].design == FindIn(store, ids).value[j]
    ensures exists k :: 0 <= k < |store| && store[k].design == FindIn(store, ids).value[j]
                        && exists i :: 0 <= i < |ids| && CastId(ids[i]) == Some(store[k].id)
  {
    FindInMembers(store, ids, FindIn(store, ids).value[j]);
  }

  // ---------------------------------------------------------------------
  // getCityRankings

  const RankingCities: seq<string> := ["Bangalore", "Mumbai", "Kolkata", "Delhi"]
  const CalculationError: string := "Error calculating data"

  /** The line the loop pushes for one city name: its rounded cooling cost,
      or an error marker when the estimator throws for that name. */
  function EntryFor(design: Design, name: string): (r: Entry)
    ensures r.city == name && r.rank == None
    ensures r.Priced? <==> CityOf(name).Some?
    ensures r.Failed? ==> r.error == CalculationError
  {
    match CityOf(name)
    case None => Failed(name, CalculationError, None)
    case Some(c) => Priced(name, AnalysisFor(design, c).coolingCost, None)
  }

  /** The loop over the cities: one line per name, in order; a throw for one
      name is recorded on its line and the loop goes on. */
  method BuildEntries(design: Design, names: seq<string>) returns (entries: seq<Entry>)
    ensures |entries| == |names|
    ensures forall i :: 0 <= i < |names| ==> entries[i] == EntryFor(design, names[i])
  {
    entries := [];
    for i := 0 to |names|
      invariant |entries| == i
      invariant forall j :: 0 <= j < i ==> entries[j] == EntryFor(design, names[j])
    {
      var result := CalculateHeatGain(design, names[i]);
      match result
      case Success(a) =>
        entries := entries + [Priced(names[i], a.coolingCost, None)];
      case Failure(_) =>
        entries := entries + [Failed(names[i], CalculationError, None)];
    }
  }

  /** The comparator `a.coolingCost - b.coolingCost` is negative. An error
      line has no cost, so it is never strictly cheaper nor more expensive. */
  predicate CheaperThan(a: Entry, b: Entry)
  {
    a.Priced? && b.Priced? && a.coolingCost < b.coolingCost
  }

  /** Puts `x` in front of the first line that is not strictly cheaper. */
  function Insert(x: Entry, sorted: seq<Entry>): (r: seq<Entry>)
    ensures |r| == |sorted| + 1
    ensures multiset(r) == multiset(sorted) + multiset{x}
  {
    if sorted == [] || !CheaperThan(sorted[0], x) then [x] + sorted
    else
      assert sorted == [sorted[0]] + sorted[1..];
      [sorted[0]] + Insert(x, sorted[1..])
  }

  /** `Array.prototype.sort` with the cost comparator, as an insertion sort
      that keeps lines of equal cost in their original order. */
  function SortByCost(s: seq<Entry>): (r: seq<Entry>)
    ensures |r| == |s|
    ensures multiset(r) == multiset(s)
  {
    if s == [] then []
    else
      assert s == [s[0]] + s[1..];
      Insert(s[0], SortByCost(s[1..]))
  }

  predicate AllPriced(s: seq<Entry>)
  {
    forall i :: 0 <= i < |s| ==> s[i].Priced?
  }

  predicate SortedByCost(s: seq<Entry>)
    requires AllPriced(s)
  {
    forall i, j :: 0 <= i < j < |s| ==> s[i].coolingCost <= s[j].coolingCost
  }

  /** A priced line followed by an ascending list it does not exceed is ascending. */
  lemma SortedCons(h: Entry, t: seq<Entry>)
    requires h.Priced? && AllPriced(t) && SortedByCost(t)
    requires forall k :: 0 <= k < |t| ==> h.coolingCost <= t[k].coolingCost
    ensures AllPriced([h] + t) && SortedByCost([h] + t)
  {
    var r := [h] + t;
    forall i, j | 0 <= i < j < |r| ensures r[i].coolingCost <= r[j].coolingCost {
      assert r[j] == t[j - 1];
      if i > 0 { assert r[i] == t[i - 1]; }
    }
  }

  /** Inserting a priced line into priced lines all costing at least `b`
      keeps every line priced and at least `b`. */
  lemma {:induction false} InsertLowerBound(x: Entry, sorted: seq<Entry>, b: real)
    requires x.Priced? && x.coolingCost >= b
    requires AllPriced(sorted) && forall k :: 0 <= k < |sorted| ==> sorted[k].coolingCost >= b
    ensures AllPriced(Insert(x, sorted))
    ensures forall k :: 0 <= k < |Insert(x, sorted)| ==> Insert(x, sorted)[k].coolingCost >= b
  {
    if sorted != [] && CheaperThan(sorted[0], x) {
      InsertLowerBound(x, sorted[1..], b);
    }
  }

  lemma {:induction false} InsertSorted(x: Entry, sorted: seq<Entry>)
    requires x.Priced? && AllPriced(sorted) && SortedByCost(sorted)
    ensures AllPriced(Insert(x, sorted)) && SortedByCost(Insert(x, sorted))
  {
    if sorted == [] || !CheaperThan(sorted[0], x) {
      SortedCons(x, sorted);
    } else {
      var rest := sorted[1..];
      assert AllPriced(rest) && SortedByCost(rest);
      InsertSorted(x, rest);
      InsertLowerBound(x, rest, sorted[0].coolingCost);
      SortedCons(sorted[0], Insert(x, rest));
    }
  }

  /** When every line has a cost, the sorted list ascends by cost. */
  lemma {:induction false} SortByCostSorted(s: seq<Entry>)
    requires AllPriced(s)
    ensures AllPriced(SortByCost(s)) && SortedByCost(SortByCost(s))
  {
    if s != [] {
      assert AllPriced(s[1..]);
      SortByCostSorted(s[1..]);
      InsertSorted(s[0], SortByCost(s[1..]));
    }
  }

  /** The priced lines of cost `c`, in their order in `s`. */
  function WithCost(s: seq<Entry>, c: real): (r: seq<Entry>)
    ensures |r| <= |s|
    ensures forall k :: 0 <= k < |r| ==> r[k].Priced? && r[k].coolingCost == c
  {
    if s == [] then []
    else (if s[0].Priced? && s[0].coolingCost == c then [s[0]] else []) + WithCost(s[1..], c)
  }

  lemma WithCostCons(e: Entry, t: seq<Entry>, c: real)
    ensures WithCost([e] + t, c)
         == (if e.Priced? && e.coolingCost == c then [e] else []) + WithCost(t, c)
  {
    assert ([e] + t)[1..] == t;
  }

  /** Inserting a line of cost `c` puts it in front of the other lines of cost `c`. */
  lemma {:induction false} InsertSameCost(x: Entry, sorted: seq<Entry>, c: real)
    requires x.Priced? && x.coolingCost == c
    ensures WithCost(Insert(x, sorted), c) == [x] + WithCost(sorted, c)
  {
    if sorted == [] || !CheaperThan(sorted[0], x) {
      assert Insert(x, sorted) == [x] + sorted;
      WithCostCons(x, sorted, c);
    } else {
      var h, rest := sorted[0], sorted[1..];
      var mid := Insert(x, rest);
      assert Insert(x, sorted) == [h] + mid;
      assert sorted == [h] + rest;
      InsertSameCost(x, rest, c);
      WithCostCons(h, mid, c);
      WithCostCons(h, rest, c);
    }
  }

  /** Inserting a line of another cost leaves the lines of cost `c` as they were. */
  lemma {:induction false} InsertOtherCost(x: Entry, sorted: seq<Entry>, c: real)
    requires !(x.Priced? && x.coolingCost == c)
    ensures WithCost(Insert(x, sorted), c) == WithCost(sorted, c)
  {
    if sorted == [] || !CheaperThan(sorted[0], x) {
      assert Insert(x, sorted) == [x] + sorted;
      WithCostCons(x, sorted, c);
    } else {
      var h, rest := sorted[0], sorted[1..];
      var mid := Insert(x, rest);
      assert Insert(x, sorted) == [h] + mid;
      assert sorted == [h] + rest;
      InsertOtherCost(x, rest, c);
      WithCostCons(h, mid, c);
      WithCostCons(h, rest, c);
    }
  }

  /** The sort is stable: the lines of any one cost keep their relative order. */
  lemma {:induction false} SortByCostStable(s: seq<Entry>, c: real)
    ensures WithCost(SortByCost(s), c) == WithCost(s, c)
  {
    if s != [] {
      var h, t := s[0], s[1..];
      var st := SortByCost(t);
      assert SortByCost(s) == Insert(h, st);
      assert s == [h] + t;
      SortByCostStable(t, c);
      WithCostCons(h, t, c);
      if h.Priced? && h.coolingCost == c {
        InsertSameCost(h, st, c);
      } else {
        InsertOtherCost(h, st, c);
      }
    }
  }

  /** When every line of `t` has cost `c`, filtering by `c` keeps all of `t`. */
  lemma {:induction false} WithCostAll(t: seq<Entry>, c: real)
    requires forall k :: 0 <= k < |t| ==> t[k].Priced? && t[k].coolingCost == c
    ensures WithCost(t, c) == t
  {
    if t != [] {
      WithCostAll(t[1..], c);
      WithCostCons(t[0], t[1..], c);
      assert t == [t[0]] + t[1..];
    }
  }

  /** Filtering keeps every line only when every line has that cost. */
  lemma {:induction false} WithCostFull(t: seq<Entry>, c: real)
    requires |WithCost(t, c)| == |t|
    ensures WithCost(t, c) == t
  {
    if t != [] {
      WithCostCons(t[0], t[1..], c);
      assert t == [t[0]] + t[1..];
      if t[0].Priced? && t[0].coolingCost == c {
        WithCostFull(t[1..], c);
      }
    }
  }

  /** A result that keeps every cost's lines in input order, when all lines
      cost the same, is the input itself: ties come out in loop order. */
  lemma EqualCostsKeepOrder(entries: seq<Entry>, u: seq<Entry>, c: real)
    requires forall k :: 0 <= k < |entries| ==> entries[k].Priced? && entries[k].coolingCost == c
    requires |u| == |entries|
    requires forall c' :: WithCost(u, c') == WithCost(entries, c')
    ensures u == entries
  {
    WithCostAll(entries, c);
    assert WithCost(u, c) == entries;
    WithCostFull(u, c);
  }

  /** A line with its rank set to `k`. */
  function WithRank(e: Entry, k: nat): (r: Entry)
    ensures r.rank == Some(k)
    ensures Unrank(r) == Unrank(e)
  {
    e.(rank := Some(k))
  }

  /** The `forEach` that numbers the sorted lines in place: rank = index + 1. */
  method AssignRanks(a: array<Entry>)
    modifies a
    ensures forall i :: 0 <= i < a.Length ==> a[i] == WithRank(old(a[i]), i + 1)
  {
    for index := 0 to a.Length
      invariant forall i :: 0 <= i < index ==> a[i] == WithRank(old(a[i]), i + 1)
      invariant forall i :: index <= i < a.Length ==> a[i] == old(a[i])
    {
      a[index] := WithRank(a[index], index + 1);
    }
  }

  /** The line for each of the four cities, before sorting. */
  function ExpectedEntries(design: Design): (r: seq<Entry>)
    ensures |r| == 4
  {
    [ EntryFor(design, "Bangalore"), EntryFor(design, "Mumbai"),
      EntryFor(design, "Kolkata"), EntryFor(design, "Delhi") ]
  }

  /** A line with its rank number removed. */
  function Unrank(e: Entry): (r: Entry)
    ensures r.rank == None
    ensures e.rank == None ==> r == e
  {
    e.(rank := None)
  }

  /** A ranking with its rank numbers removed. */
  function Unranked(s: seq<Entry>): (r: seq<Entry>)
    ensures |r| == |s|
  {
    seq(|s|, i requires 0 <= i < |s| => Unrank(s[i]))
  }

  /** All four city names are keys of the tables, so no line is an error. */
  lemma ExpectedEntriesPriced(design: Design)
    ensures AllPriced(ExpectedEntries(design))
  {
  }

  /** Sorting lines that carry no rank yields lines that carry no rank. */
  lemma {:induction false} RanksStayNone(s: seq<Entry>, t: seq<Entry>)
    requires multiset(s) == multiset(t)
    requires forall i :: 0 <= i < |t| ==> t[i].rank == None
    ensures forall i :: 0 <= i < |s| ==> s[i].rank == None
  {
    forall i | 0 <= i < |s| ensures s[i].rank == None {
      assert s[i] in multiset(t);
      var k :| 0 <= k < |t| && t[k] == s[i];
    }
  }

  /** Numbering a sorted list keeps it sorted and keeps what it holds. */
  lemma NumberingKeepsOrder(sorted: seq<Entry>, rs: seq<Entry>)
    requires AllPriced(sorted) && SortedByCost(sorted)
    requires forall i :: 0 <= i < |sorted| ==> sorted[i].rank == None
    requires |rs| == |sorted|
    requires forall i :: 0 <= i < |rs| ==> rs[i] == WithRank(sorted[i], i + 1)
    ensures AllPriced(rs) && SortedByCost(rs)
    ensures Unranked(rs) == sorted
  {
    forall i | 0 <= i < |rs| ensures Unranked(rs)[i] == sorted[i] {
      assert Unrank(rs[i]) == Unrank(sorted[i]);
    }
  }

  /** The loop over the four ranking cities builds exactly the expected lines. */
  lemma BuiltIsExpected(design: Design, entries: seq<Entry>)
    requires |entries| == |RankingCities|
    requires forall i :: 0 <= i < |RankingCities| ==> entries[i] == EntryFor(design, RankingCities[i])
    ensures entries == ExpectedEntries(design)
  {
    assert entries[0] == EntryFor(design, "Bangalore");
    assert entries[1] == EntryFor(design, "Mumbai");
    assert entries[2] == EntryFor(design, "Kolkata");
    assert entries[3] == EntryFor(design, "Delhi");
  }

  /** Sorts the lines by cost and numbers them from 1: the result ascends by
      cost, holds the same lines apart from their ranks (lines of equal cost
      in their original order), and each line's rank is its position plus one. */
  method RankEntries(entries: seq<Entry>) returns (rs: seq<Entry>)
    requires AllPriced(entries)
    requires forall i :: 0 <= i < |entries| ==> entries[i].rank == None
    ensures |rs| == |entries|
    ensures forall i :: 0 <= i < |rs| ==> rs[i].rank == Some(i + 1)
    ensures AllPriced(rs) && SortedByCost(rs)
    ensures multiset(Unranked(rs)) == multiset(entries)
    ensures forall c :: WithCost(Unranked(rs), c) == WithCost(entries, c)
  {
    var sorted := SortByCost(entries);
    forall c ensures WithCost(sorted, c) == WithCost(entries, c) {
      SortByCostStable(entries, c);
    }
    SortByCostSorted(entries);
    RanksStayNone(sorted, entries);
    var a := new Entry[|sorted|](i requires 0 <= i < |sorted| => sorted[i]);
    AssignRanks(a);
    rs := a[..];
    NumberingKeepsOrder(sorted, rs);
  }

  const RankingsFailed: string := "Error fetching city rankings"

  /** getCityRankings: an id Mongoose cannot cast throws a CastError, caught
      as 500; an unknown id is 404; otherwise the ranking holds one line per
      city of the four (none of them an error, since all four are keys of
      the tables), ascending by cooling cost with equal costs in loop order,
      ranked 1 to 4 by position. */
  method GetCityRankings(store: Store, designId: string) returns (res: Response)
    ensures FindById(store, designId).Failure?
            ==> res == Response(500, Message(RankingsFailed, Some(CastMessage(designId))))
    ensures FindById(store, designId) == Success(None) ==> res == Response(404, Message(DesignNotFound, None))
    ensures FindById(store, designId).Success? && FindById(store, designId).value.Some? ==>
      var d := FindById(store, designId).value.value;
      && res.status == 200 && res.payload.Ranked?
      && res.payload.design == d
      && var rs := res.payload.cityRankings;
         && |rs| == 4
         && (forall i :: 0 <= i < |rs| ==> rs[i].rank == Some(i + 1))
         && AllPriced(rs) && SortedByCost(rs)
         && multiset(Unranked(rs)) == multiset(ExpectedEntries(d))
         && (forall c :: WithCost(Unranked(rs), c) == WithCost(ExpectedEntries(d), c))
  {
    var found := FindById(store, designId);
    if found.Failure? {
      return Response(500, Message(RankingsFailed, Some(found.error)));
    }
    if found.value.None? {
      return Response(404, Message(DesignNotFound, None));
    }
    var design := found.value.value;
    var cityRankings := BuildEntries(design, RankingCities);
    BuiltIsExpected(design, cityRankings);
    ExpectedEntriesPriced(design);
    var rs := RankEntries(cityRankings);
    res := Response(200, Ranked(design, rs));
  }
}
