/** The middlewares that guard the three analysis routes. They read the
    parsed query string; the comparison guard also writes the split list of
    ids back into the query for the handler that follows. */
module AnalysisValidation {
  import opened Common

  /** A query-string value: a single string, or an array when the key repeats. */
  datatype Param = QStr(s: string) | QArr(items: seq<string>)

  type Query = map<string, Param>

  function Lookup(q: Query, key: string): Option<Param>
  {
    if key in q then Some(q[key]) else None
  }

  /** JavaScript truthiness: absent and the empty string are falsy, arrays never are. */
  predicate Truthy(p: Option<Param>)
  {
    p.Some? && (p.value.QArr? || p.value.s != "")
  }

  const ValidCities: seq<string> := ["Bangalore", "Mumbai", "Kolkata", "Delhi"]

  /** `validCities.includes(city)`: strict equality with one of the four names. */
  predicate IsValidCity(city: Option<Param>)
  {
    city.Some? && city.value.QStr? && city.value.s in ValidCities
  }

  const DesignIdRequired: string := "designId is required."
  const ValidCityRequired: string := "A valid city (Bangalore, Mumbai, Kolkata, Delhi) is required."
  const ValidCitiesUndefined: string := "ReferenceError: validCities is not defined"

  // ---------------------------------------------------------------------
  // validateAnalysisInput

  /** As written: the city test names `validCities`, which is declared only
      inside validateCompareInput. Evaluating it throws, so every request with
      both fields present ends in the error, and the next handler is never
      reached. A missing city short-circuits before the name is read. */
  function ValidateAnalysisInput(q: Query): (o: Outcome)
    ensures o != Next
    ensures !Truthy(Lookup(q, "designId")) ==> o == Respond(400, DesignIdRequired)
    ensures Truthy(Lookup(q, "designId")) && !Truthy(Lookup(q, "city"))
            ==> o == Respond(400, ValidCityRequired)
    ensures o.Throws? <==> Truthy(Lookup(q, "designId")) && Truthy(Lookup(q, "city"))
  {
    if !Truthy(Lookup(q, "designId")) then Respond(400, DesignIdRequired)
    else if !Truthy(Lookup(q, "city")) then Respond(400, ValidCityRequired)
    else Throws(ValidCitiesUndefined)
  }

  /** As intended: the same checks with the list of valid cities in scope. */
  function ValidateAnalysisInputIntended(q: Query): (o: Outcome)
    ensures !o.Throws?
    ensures o == Next <==> Truthy(Lookup(q, "designId")) && IsValidCity(Lookup(q, "city"))
    ensures !Truthy(Lookup(q, "designId")) ==> o == Respond(400, DesignIdRequired)
  {
    if !Truthy(Lookup(q, "designId")) then Respond(400, DesignIdRequired)
    else if !Truthy(Lookup(q, "city")) || !IsValidCity(Lookup(q, "city")) then Respond(400, ValidCityRequired)
    else Next
  }

  /** The discrepancy on one request: a valid id and city are refused by the
      code as written and accepted by the intended check. */
  lemma ValidCitiesScopeCounterexample()
    ensures var q := map["designId" := QStr("64b7f0c2a1d3e4f5a6b7c8d9"), "city" := QStr("Delhi")];
      ValidateAnalysisInput(q) == Throws(ValidCitiesUndefined)
      && ValidateAnalysisInputIntended(q) == Next
  {
    var q := map["designId" := QStr("64b7f0c2a1d3e4f5a6b7c8d9"), "city" := QStr("Delhi")];
    assert Lookup(q, "city") == Some(QStr("Delhi"));
    assert ValidCities[3] == "Delhi";
  }

  // ---------------------------------------------------------------------
  // validateCityRankingsInput

  predicate IsHexDigit(c: char)
  {
    '0' <= c <= '9' || 'a' <= c <= 'f' || 'A' <= c <= 'F'
  }

  /** The characters of the class `[0-9a-fA-F]`, spelled out. */
  const HexAlphabet: string := "0123456789abcdefABCDEF"

  /** The test `^[0-9a-fA-F]{24}$`: exactly 24 characters, each from the class. */
  function IsObjectIdText(s: string): (r: bool)
    ensures r <==> |s| == 24 && forall c :: c in s ==> c in HexAlphabet
  {
    HexDigitIffInAlphabet();
    assert (forall i :: 0 <= i < |s| ==> IsHexDigit(s[i])) <==> (forall c :: c in s ==> IsHexDigit(c));

    |s| == 24 && forall i :: 0 <= i < |s| ==> IsHexDigit(s[i])
  }

  lemma HexDigitIffInAlphabet()
    ensures forall c :: IsHexDigit(c) <==> c in HexAlphabet
  {
    forall c ensures IsHexDigit(c) <==> c in HexAlphabet {
      if IsHexDigit(c) {
        if '0' <= c <= '9' {
          assert HexAlphabet[(c as int) - ('0' as int)] == c;
        } else if 'a' <= c <= 'f' {
          assert HexAlphabet[10 + (c as int) - ('a' as int)] == c;
        } else {
          assert HexAlphabet[16 + (c as int) - ('A' as int)] == c;
        }
      }
    }
  }

  /** Joins pieces with commas, as `Array.prototype.join(',')` does: the
      first piece leads, and a comma follows it when more pieces come. */
  function Join(parts: seq<string>): (r: string)
    ensures |parts| >= 1 ==> parts[0] <= r
    ensures |parts| >= 2 ==> |r| > |parts[0]| && r[|parts[0]|] == ','
  {
    if parts == [] then ""
    else if |parts| == 1 then parts[0]
    else
      var rest := Join(parts[1..]);
      parts[0] + "," + rest
  }

  /** `String(v)`, which a regular-expression test applies to its argument. */
  function ToJsString(p: Param): string
  {
    match p
    case QStr(s) => s
    case QArr(items) => Join(items)
  }

  const DesignIdRequiredInQuery: string := "designId is required in query parameters."
  const InvalidDesignIdFormat: string := "Invalid designId format."

  /** The id must be present and consist of exactly 24 hexadecimal digits of
      either case; nothing is thrown. */
  function ValidateCityRankingsInput(q: Query): (o: Outcome)
    ensures o == Next <==> Lookup(q, "designId").Some?
                           && IsObjectIdText(ToJsString(Lookup(q, "designId").value))
    ensures o == Respond(400, DesignIdRequiredInQuery) <==> !Truthy(Lookup(q, "designId"))
    ensures o != Next && Truthy(Lookup(q, "designId")) ==> o == Respond(400, InvalidDesignIdFormat)
  {
    var id := Lookup(q, "designId");
    if !Truthy(id) then Respond(400, DesignIdRequiredInQuery)
    else if !IsObjectIdText(ToJsString(id.value)) then Respond(400, InvalidDesignIdFormat)
    else Next
  }

  // ---------------------------------------------------------------------
  // Splitting on commas

  /** `s.split(',')`: the pieces between commas, at least one (the empty
      string gives one empty piece), none containing a comma. */
  function Split(s: string): (parts: seq<string>)
    ensures |parts| >= 1
    ensures forall i :: 0 <= i < |parts| ==> ',' !in parts[i]
  {
    if s == [] then [""]
    else
      var rest := Split(s[1..]);
      if s[0] == ',' then [""] + rest
      else [[s[0]] + rest[0]] + rest[1..]
  }

  /** There is one more piece than there are commas. */
  lemma {:induction false} SplitLength(s: string)
    ensures |Split(s)| == multiset(s)[','] + 1
  {
    if s != [] {
      SplitLength(s[1..]);
      assert s == [s[0]] + s[1..];
      assert multiset(s) == multiset{s[0]} + multiset(s[1..]);
    }
  }

  /** Fewer than two pieces exactly when there is no comma. */
  lemma SplitSingleIffNoComma(s: string)
    ensures |Split(s)| < 2 <==> ',' !in s
  {
    SplitLength(s);
  }

  /** Joining the pieces with commas gives back the original string. */
  lemma {:induction false} JoinSplit(s: string)
    ensures Join(Split(s)) == s
  {
    if s != [] {
      var rest := Split(s[1..]);
      JoinSplit(s[1..]);
      if s[0] == ',' {
        assert Split(s) == [""] + rest;
        assert ([""] + rest)[1..] == rest;
      } else {
        var parts := [[s[0]] + rest[0]] + rest[1..];
        assert Split(s) == parts;
        assert parts[1..] == rest[1..];
        if |rest| == 1 {
          assert Join(rest) == rest[0];
          assert Join(parts) == parts[0];
        } else {
          var tail := Join(rest[1..]);
          assert Join(rest) == rest[0] + "," + tail;
          assert Join(parts) == parts[0] + "," + tail;
          assert s == [s[0]] + s[1..];
        }
      }
    }
  }

  /** Splitting a comma-free piece followed by more text: the piece becomes the first part. */
  lemma {:induction false} SplitPrefix(p: string, tail: string)
    requires ',' !in p
    ensures Split(p + tail)[0] == p + Split(tail)[0]
    ensures Split(p + tail)[1..] == Split(tail)[1..]
  {
    if p != [] {
      assert (p + tail)[1..] == p[1..] + tail;
      assert p[0] != ',' by { assert p[0] in p; }
      SplitPrefix(p[1..], tail);
      assert [p[0]] + (p[1..] + Split(tail)[0]) == p + Split(tail)[0];
    } else {
      assert p + tail == tail;
    }
  }

  /** Splitting comma-joined comma-free pieces gives back the pieces. */
  lemma {:induction false} SplitJoin(parts: seq<string>)
    requires |parts| >= 1
    requires forall i :: 0 <= i < |parts| ==> ',' !in parts[i]
    ensures Split(Join(parts)) == parts
  {
    if |parts| == 1 {
      SplitPrefix(parts[0], "");
      assert parts[0] + "" == parts[0];
    } else {
      var rest := parts[1..];
      SplitJoin(rest);
      var tail := "," + Join(rest);
      assert Join(parts) == parts[0] + tail;
      SplitPrefix(parts[0], tail);
      assert tail[1..] == Join(rest);
      assert Split(tail) == [""] + Split(Join(rest));
      var r := Split(Join(parts));
      assert r[0] == parts[0] + "";
      assert r[1..] == rest;
      assert parts[0] + "" == parts[0];
      assert r == [r[0]] + r[1..];
      assert parts == [parts[0]] + parts[1..];
    }
  }

  /** A trailing comma makes two pieces, the second empty; one id makes one. */
  lemma SplitExamples()
    ensures Split("a,") == ["a", ""]
    ensures Split("a") == ["a"]
  {
    assert Split("") == [""];
    assert "a,"[1..] == "," && ","[1..] == "" && "a"[1..] == "";
    assert Split(",") == ["", ""];
    assert Split("a,") == [['a'] + ""] + [""];
    assert ['a'] + "" == "a";
  }

  // ---------------------------------------------------------------------
  // validateCompareInput

  const BothRequired: string := "Both city and designIds are required."
  const TwoIdsRequired: string := "At least two valid designIds are required for comparison."
  const SplitNotAFunction: string := "TypeError: designIds.split is not a function"

  /** The request whose query the middlewares read and update. */
  class Request {
    var query: Query

    constructor (q: Query)
      ensures query == q
    {
      query := q;
    }
  }

  /** Both fields are required; the ids are split on commas and fewer than
      two pieces are refused before the city is looked at; then the city must
      be one of the four. On success the split array replaces the string in
      the query; on every other path the query is left as it was. An array
      of ids has no `split`, so it throws. */
  method ValidateCompareInput(req: Request) returns (o: Outcome)
    modifies req
    ensures var ids, city := Lookup(old(req.query), "designIds"), Lookup(old(req.query), "city");
      && (!Truthy(ids) || !Truthy(city) ==> o == Respond(400, BothRequired))
      && (Truthy(ids) && Truthy(city) && ids.value.QArr? ==> o == Throws(SplitNotAFunction))
      && (Truthy(ids) && Truthy(city) && ids.value.QStr? && ',' !in ids.value.s
          ==> o == Respond(400, TwoIdsRequired))
      && (Truthy(ids) && Truthy(city) && ids.value.QStr? && ',' in ids.value.s
          ==> o == if IsValidCity(city) then Next else Respond(400, ValidCityRequired))
    ensures o == Next ==> req.query == old(req.query)["designIds" := QArr(Split(old(req.query)["designIds"].s))]
    ensures o != Next ==> req.query == old(req.query)
  {
    var designIds, city := Lookup(req.query, "designIds"), Lookup(req.query, "city");
    if !Truthy(designIds) || !Truthy(city) {
      return Respond(400, BothRequired);
    }
    if designIds.value.QArr? {
      return Throws(SplitNotAFunction);
    }
    var designIdsArray := Split(designIds.value.s);
    SplitSingleIffNoComma(designIds.value.s);
    if |designIdsArray| < 2 {
      return Respond(400, TwoIdsRequired);
    }
    if !IsValidCity(city) {
      return Respond(400, ValidCityRequired);
    }
    req.query := req.query["designIds" := QArr(designIdsArray)];
    o := Next;
  }
}
