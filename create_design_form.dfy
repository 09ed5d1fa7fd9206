/** The client-side check of the design form. Unlike the server's guard, it
    visits every field, records at most one message per field key (a later
    message for the same key replaces an earlier one), and accepts the form
    only when no key was recorded. Each numeric field holds the text of a
    number input: `None` is the empty text, `Some(v)` a non-empty text that
    reads as `v` (truthy even when it reads 0). The empty text compares as 0. */
module CreateDesignForm {
  import opened Common
  import DesignValidation

  datatype SideInput = SideInput(width: Option<real>, height: Option<real>)

  datatype FormData = FormData(
    name: string,
    dimensions: Quad<SideInput>,
    wwr: Quad<Option<real>>,
    shgc: Option<real>,
    skylight: SideInput)

  /** The keys under which messages are recorded. */
  datatype FieldKey =
    | NameKey
    | WidthKey(d: Direction)
    | HeightKey(d: Direction)
    | WwrKey(d: Direction)
    | ShgcKey
    | SkylightWidthKey
    | SkylightHeightKey

  /** The property name of a key in the errors object. */
  function KeyName(k: FieldKey): string
  {
    match k
    case NameKey => "name"
    case WidthKey(d) => DirectionName(d) + "Width"
    case HeightKey(d) => DirectionName(d) + "Height"
    case WwrKey(d) => DirectionName(d) + "WWR"
    case ShgcKey => "shgc"
    case SkylightWidthKey => "skylightWidth"
    case SkylightHeightKey => "skylightHeight"
  }

  /** What is wrong with a field. */
  datatype Problem = Required | NotPositive | OutOfRange

  /** The message shown for a problem under a key. */
  function Message(k: FieldKey, p: Problem): string
  {
    match k
    case NameKey => "Design name is required."
    case WidthKey(d) =>
      DirectionName(d) + (if p == Required then " width is required." else " width must be a positive number.")
    case HeightKey(d) =>
      DirectionName(d) + (if p == Required then " height is required." else " height must be a positive number.")
    case WwrKey(d) =>
      DirectionName(d) + (if p == Required then " WWR is required." else " WWR must be between 0 and 1.")
    case ShgcKey => if p == Required then "SHGC is required." else "SHGC must be between 0 and 1."
    case SkylightWidthKey =>
      if p == Required then "Skylight width is required." else "Skylight width must be positive."
    case SkylightHeightKey =>
      if p == Required then "Skylight height is required." else "Skylight height must be positive."
  }

  // ---------------------------------------------------------------------
  // Field text

  /** The value a field's text converts to in a comparison with a number. */
  function AsNumber(v: Option<real>): real
  {
    if v.None? then 0.0 else v.value
  }

  /** The characters `String.prototype.trim` removes: white space and line
      terminators of ECMAScript (section 12.2 and 12.3 of ECMA-262). */
  predicate IsJsWhitespace(c: char)
  {
    c == '\t' || c == '\n' || c == '\U{000B}' || c == '\U{000C}' || c == '\r' || c == ' '
    || c == '\U{00A0}' || c == '\U{1680}' || ('\U{2000}' <= c <= '\U{200A}')
    || c == '\U{2028}' || c == '\U{2029}' || c == '\U{202F}' || c == '\U{205F}'
    || c == '\U{3000}' || c == '\U{FEFF}'
  }

  /** Drops leading white space: the result is a suffix of `s`, everything
      dropped is white space, and the result does not start with any. */
  function TrimStart(s: string): (r: string)
    ensures |r| <= |s| && r == s[|s| - |r|..]
    ensures forall i :: 0 <= i < |s| - |r| ==> IsJsWhitespace(s[i])
    ensures r != [] ==> !IsJsWhitespace(r[0])
  {
    if s != [] && IsJsWhitespace(s[0]) then TrimStart(s[1..]) else s
  }

  /** Drops trailing white space: the result is a prefix of `s`, everything
      dropped is white space, and the result does not end with any. */
  function TrimEnd(s: string): (r: string)
    ensures |r| <= |s| && r == s[..|r|]
    ensures forall i :: |r| <= i < |s| ==> IsJsWhitespace(s[i])
    ensures r != [] ==> !IsJsWhitespace(r[|r| - 1])
  {
    if s != [] && IsJsWhitespace(s[|s| - 1]) then TrimEnd(s[..|s| - 1]) else s
  }

  /** `s.trim()`: no longer than `s`, and neither starting nor ending with
      white space. */
  function Trim(s: string): (r: string)
    ensures |r| <= |s|
    ensures r != [] ==> !IsJsWhitespace(r[0]) && !IsJsWhitespace(r[|r| - 1])
  {
    TrimEnd(TrimStart(s))
  }

  lemma {:induction false} TrimStartEmpty(s: string)
    ensures TrimStart(s) == [] <==> forall i :: 0 <= i < |s| ==> IsJsWhitespace(s[i])
  {
    if s != [] && IsJsWhitespace(s[0]) {
      TrimStartEmpty(s[1..]);
      assert forall i :: 1 <= i < |s| ==> s[i] == s[1..][i - 1];
    }
  }

  lemma {:induction false} TrimEndEmpty(s: string)
    ensures TrimEnd(s) == [] <==> forall i :: 0 <= i < |s| ==> IsJsWhitespace(s[i])
  {
    if s != [] && IsJsWhitespace(s[|s| - 1]) {
      TrimEndEmpty(s[..|s| - 1]);
      assert forall i :: 0 <= i < |s| - 1 ==> s[i] == s[..|s| - 1][i];
    }
  }

  /** A name trims to nothing exactly when every character of it is white space. */
  lemma BlankIffAllWhitespace(s: string)
    ensures Trim(s) == [] <==> forall i :: 0 <= i < |s| ==> IsJsWhitespace(s[i])
  {
    var t := TrimStart(s);
    TrimStartEmpty(s);
    TrimEndEmpty(t);
    assert Trim(s) == [] <==> t == [];
  }

  // ---------------------------------------------------------------------
  // The message each key ends up with

  /** A width or height: empty is required, a value at or below 0 is not positive. */
  function SideProblem(v: Option<real>): Option<Problem>
  {
    if v.None? then Some(Required) else if v.value <= 0.0 then Some(NotPositive) else None
  }

  /** A ratio (WWR or SHGC): empty is required, a value outside [0, 1] is out of range. */
  function FractionProblem(v: Option<real>): Option<Problem>
  {
    if v.None? then Some(Required) else if v.value < 0.0 || v.value > 1.0 then Some(OutOfRange) else None
  }

  /** A skylight side: the empty text compares as 0, so the positivity test
      that runs after the required test replaces its message. */
  function SkylightProblem(v: Option<real>): Option<Problem>
  {
    if AsNumber(v) <= 0.0 then Some(NotPositive) else None
  }

  /** The problem finally recorded under each key, if any. */
  function Expected(form: FormData, k: FieldKey): (r: Option<Problem>)
    ensures r == Some(OutOfRange) ==> k.WwrKey? || k == ShgcKey
    ensures r == Some(NotPositive) ==> k.WidthKey? || k.HeightKey? || k == SkylightWidthKey || k == SkylightHeightKey
    ensures r == Some(Required) ==> k != SkylightWidthKey && k != SkylightHeightKey
  {
    match k
    case NameKey => if Trim(form.name) == [] then Some(Required) else None
    case WidthKey(d) => SideProblem(form.dimensions.At(d).width)
    case HeightKey(d) => SideProblem(form.dimensions.At(d).height)
    case WwrKey(d) => FractionProblem(form.wwr.At(d))
    case ShgcKey => FractionProblem(form.shgc)
    case SkylightWidthKey => SkylightProblem(form.skylight.width)
    case SkylightHeightKey => SkylightProblem(form.skylight.height)
  }

  /** The errors object once the checks for the keys in `done` have run:
      each of those keys with a problem, mapped to that problem's message. */
  function Recorded(form: FormData, done: set<FieldKey>): (m: map<FieldKey, string>)
    ensures forall k :: k in m <==> k in done && Expected(form, k).Some?
  {
    map k | k in done && Expected(form, k).Some? :: Message(k, Expected(form, k).value)
  }

  /** The errors after the checks for key `k` have run: its message if it
      has a problem, the errors unchanged otherwise. */
  function Record(errors: map<FieldKey, string>, k: FieldKey, p: Option<Problem>): map<FieldKey, string>
  {
    if p.Some? then errors[k := Message(k, p.value)] else errors
  }

  /** Running the checks for one more key records exactly that key's problem. */
  lemma RecordStep(form: FormData, done: set<FieldKey>, k: FieldKey)
    ensures Recorded(form, done + {k}) == Record(Recorded(form, done), k, Expected(form, k))
  {
  }

  /** The keys whose checks have run once the name and the first `i`
      directions are done. */
  function CheckedBy(i: nat): set<FieldKey>
    requires i <= |Directions|
  {
    if i == 0 then {NameKey}
    else
      var d := Directions[i - 1];
      CheckedBy(i - 1) + {WidthKey(d), HeightKey(d), WwrKey(d)}
  }

  lemma {:induction false} CheckedByHolds(i: nat, d: Direction)
    requires IndexOf(d) < i <= |Directions|
    ensures WidthKey(d) in CheckedBy(i) && HeightKey(d) in CheckedBy(i) && WwrKey(d) in CheckedBy(i)
  {
    if IndexOf(d) < i - 1 {
      CheckedByHolds(i - 1, d);
    }
  }

  /** Every key belongs to the name, to one of the four directions or to the fields after them. */
  lemma EveryKeyChecked(k: FieldKey)
    ensures k in CheckedBy(|Directions|) + {ShgcKey} + {SkylightWidthKey} + {SkylightHeightKey}
  {
    match k
    case NameKey => CheckedByHolds0();
    case WidthKey(d) => CheckedByHolds(|Directions|, d);
    case HeightKey(d) => CheckedByHolds(|Directions|, d);
    case WwrKey(d) => CheckedByHolds(|Directions|, d);
    case _ =>
  }

  lemma {:induction false} CheckedByHolds0()
    ensures forall i :: 0 <= i <= |Directions| ==> NameKey in CheckedBy(i)
  {
    assert NameKey in CheckedBy(0);
    assert NameKey in CheckedBy(1);
    assert NameKey in CheckedBy(2);
    assert NameKey in CheckedBy(3);
    assert NameKey in CheckedBy(4);
  }

  /** The name check alone records the name's problem. */
  lemma NameStep(form: FormData)
    ensures Recorded(form, CheckedBy(0)) == Record(map[], NameKey, Expected(form, NameKey))
  {
    RecordStep(form, {}, NameKey);
    assert {} + {NameKey} == CheckedBy(0);
  }

  /** The callback for direction `i` records exactly that direction's problems. */
  lemma DirectionStep(form: FormData, i: nat)
    requires i < |Directions|
    ensures var d := Directions[i];
      Recorded(form, CheckedBy(i + 1))
      == Record(Record(Record(Recorded(form, CheckedBy(i)), WidthKey(d), Expected(form, WidthKey(d))),
                       HeightKey(d), Expected(form, HeightKey(d))),
                WwrKey(d), Expected(form, WwrKey(d)))
  {
    var d := Directions[i];
    var done := CheckedBy(i);
    RecordStep(form, done, WidthKey(d));
    RecordStep(form, done + {WidthKey(d)}, HeightKey(d));
    RecordStep(form, done + {WidthKey(d)} + {HeightKey(d)}, WwrKey(d));
    assert done + {WidthKey(d)} + {HeightKey(d)} + {WwrKey(d)} == CheckedBy(i + 1);
  }

  /** The name test: the name must not trim to nothing. */
  method CheckName(form: FormData, errors: map<FieldKey, string>) returns (errors': map<FieldKey, string>)
    ensures errors' == Record(errors, NameKey, Expected(form, NameKey))
  {
    errors' := errors;
    if Trim(form.name) == [] {
      errors' := errors'[NameKey := "Design name is required."];
    }
  }

  /** A width or height test: required when empty, else positive. The
      messages are the templates `${dir} width is required.` and so on. */
  method CheckPositive(errors: map<FieldKey, string>, k: FieldKey, v: Option<real>)
    returns (errors': map<FieldKey, string>)
    ensures errors' == Record(errors, k, SideProblem(v))
  {
    errors' := errors;
    if v.None? {
      errors' := errors'[k := Message(k, Required)];
    } else if v.value <= 0.0 {
      errors' := errors'[k := Message(k, NotPositive)];
    }
  }

  /** A WWR test: required when empty (the text is never the number 0),
      else within [0, 1]. */
  method CheckRatio(errors: map<FieldKey, string>, k: FieldKey, v: Option<real>)
    returns (errors': map<FieldKey, string>)
    ensures errors' == Record(errors, k, FractionProblem(v))
  {
    errors' := errors;
    if v.None? {
      errors' := errors'[k := Message(k, Required)];
    } else if v.value < 0.0 || v.value > 1.0 {
      errors' := errors'[k := Message(k, OutOfRange)];
    }
  }

  /** The callback run for one direction: its width, height and WWR
      checks, each recording at most one message. */
  method CheckDirection(form: FormData, dir: Direction, errors: map<FieldKey, string>)
    returns (errors': map<FieldKey, string>)
    ensures errors' == Record(Record(Record(errors, WidthKey(dir), Expected(form, WidthKey(dir))),
                                     HeightKey(dir), Expected(form, HeightKey(dir))),
                              WwrKey(dir), Expected(form, WwrKey(dir)))
  {
    var side := form.dimensions.At(dir);
    errors' := CheckPositive(errors, WidthKey(dir), side.width);
    errors' := CheckPositive(errors', HeightKey(dir), side.height);
    errors' := CheckRatio(errors', WwrKey(dir), form.wwr.At(dir));
  }

  /** The SHGC checks: the range test runs after the required test and
      replaces its message. */
  method CheckShgc(form: FormData, errors: map<FieldKey, string>) returns (errors': map<FieldKey, string>)
    ensures errors' == Record(errors, ShgcKey, Expected(form, ShgcKey))
  {
    errors' := errors;
    if form.shgc.None? {
      errors' := errors'[ShgcKey := "SHGC is required."];
    }
    if AsNumber(form.shgc) < 0.0 || AsNumber(form.shgc) > 1.0 {
      errors' := errors'[ShgcKey := "SHGC must be between 0 and 1."];
    }
  }

  /** The four skylight checks: both required tests, then both positivity
      tests, which replace the required messages. */
  method CheckSkylight(form: FormData, errors: map<FieldKey, string>) returns (errors': map<FieldKey, string>)
    ensures errors' == Record(Record(errors, SkylightWidthKey, Expected(form, SkylightWidthKey)),
                              SkylightHeightKey, Expected(form, SkylightHeightKey))
  {
    errors' := errors;
    if form.skylight.width.None? {
      errors' := errors'[SkylightWidthKey := "Skylight width is required."];
    }
    if form.skylight.height.None? {
      errors' := errors'[SkylightHeightKey := "Skylight height is required."];
    }
    if AsNumber(form.skylight.width) <= 0.0 {
      errors' := errors'[SkylightWidthKey := "Skylight width must be positive."];
    }
    if AsNumber(form.skylight.height) <= 0.0 {
      errors' := errors'[SkylightHeightKey := "Skylight height must be positive."];
    }
  }

  /** Once every key's checks have run, the errors hold exactly the
      problems of the form, and are empty exactly when it has none. */
  lemma RecordedEverything(form: FormData, done: set<FieldKey>)
    requires forall k :: k in done
    ensures forall k :: k in Recorded(form, done) <==> Expected(form, k).Some?
    ensures forall k :: k in Recorded(form, done) ==> Recorded(form, done)[k] == Message(k, Expected(form, k).value)
    ensures |Recorded(form, done)| == 0 <==> forall k :: Expected(form, k).None?
  {
    var m := Recorded(form, done);
    if |m| != 0 {
      var k :| k in m;
      assert Expected(form, k).Some?;
    } else {
      assert forall k :: k !in m;
    }
  }

  /** After the SHGC and skylight checks every key has been checked. */
  lemma FinalStep(form: FormData, errors: map<FieldKey, string>)
    requires errors == Record(Record(Record(Recorded(form, CheckedBy(|Directions|)),
                                            ShgcKey, Expected(form, ShgcKey)),
                                     SkylightWidthKey, Expected(form, SkylightWidthKey)),
                              SkylightHeightKey, Expected(form, SkylightHeightKey))
    ensures forall k :: k in errors <==> Expected(form, k).Some?
    ensures forall k :: k in errors ==> errors[k] == Message(k, Expected(form, k).value)
    ensures |errors| == 0 <==> forall k :: Expected(form, k).None?
  {
    var done := CheckedBy(|Directions|);
    RecordStep(form, done, ShgcKey);
    RecordStep(form, done + {ShgcKey}, SkylightWidthKey);
    RecordStep(form, done + {ShgcKey} + {SkylightWidthKey}, SkylightHeightKey);
    done := done + {ShgcKey} + {SkylightWidthKey} + {SkylightHeightKey};
    forall k ensures k in done {
      EveryKeyChecked(k);
    }
    RecordedEverything(form, done);
  }

  /** validate: every key whose field has a problem carries that problem's
      message and no other key is recorded; the form is accepted exactly
      when nothing was recorded. */
  method Validate(form: FormData) returns (errors: map<FieldKey, string>, ok: bool)
    ensures forall k :: k in errors <==> Expected(form, k).Some?
    ensures forall k :: k in errors ==> errors[k] == Message(k, Expected(form, k).value)
    ensures ok <==> forall k :: Expected(form, k).None?
  {
    errors := CheckName(form, map[]);
    NameStep(form);
    for i := 0 to |Directions|
      invariant errors == Recorded(form, CheckedBy(i))
    {
      DirectionStep(form, i);
      errors := CheckDirection(form, Directions[i], errors);
    }
    errors := CheckShgc(form, errors);
    errors := CheckSkylight(form, errors);
    FinalStep(form, errors);
    ok := |errors| == 0;
  }

  // ---------------------------------------------------------------------
  // Properties

  /** An accepted form has a name that is not only white space. */
  lemma AcceptedNameNotBlank(form: FormData)
    requires forall k :: Expected(form, k).None?
    ensures exists i :: 0 <= i < |form.name| && !IsJsWhitespace(form.name[i])
  {
    assert Expected(form, NameKey).None?;
    BlankIffAllWhitespace(form.name);
  }

  /** An accepted form has strictly positive widths and heights on every
      facade and on the skylight, and every ratio in [0, 1]. */
  lemma AcceptedFieldsInRange(form: FormData)
    requires forall k :: Expected(form, k).None?
    ensures forall d :: && form.dimensions.At(d).width.Some? && form.dimensions.At(d).width.value > 0.0
                        && form.dimensions.At(d).height.Some? && form.dimensions.At(d).height.value > 0.0
    ensures forall d :: form.wwr.At(d).Some? && 0.0 <= form.wwr.At(d).value <= 1.0
    ensures form.shgc.Some? && 0.0 <= form.shgc.value <= 1.0
    ensures form.skylight.width.Some? && form.skylight.width.value > 0.0
    ensures form.skylight.height.Some? && form.skylight.height.value > 0.0
  {
    forall d: Direction
      ensures && form.dimensions.At(d).width.Some? && form.dimensions.At(d).width.value > 0.0
              && form.dimensions.At(d).height.Some? && form.dimensions.At(d).height.value > 0.0
              && form.wwr.At(d).Some? && 0.0 <= form.wwr.At(d).value <= 1.0
    {
      assert Expected(form, WidthKey(d)).None?;
      assert Expected(form, HeightKey(d)).None?;
      assert Expected(form, WwrKey(d)).None?;
    }
    assert Expected(form, ShgcKey).None?;
    assert Expected(form, SkylightWidthKey).None?;
    assert Expected(form, SkylightHeightKey).None?;
  }

  /** The skylight is presented as optional, yet an empty skylight side is
      always rejected, and the "required" message for it never survives. */
  lemma SkylightEffectivelyMandatory(form: FormData)
    ensures form.skylight.width.None? ==> Expected(form, SkylightWidthKey) == Some(NotPositive)
    ensures form.skylight.height.None? ==> Expected(form, SkylightHeightKey) == Some(NotPositive)
    ensures Expected(form, SkylightWidthKey) != Some(Required)
    ensures Expected(form, SkylightHeightKey) != Some(Required)
  {
  }

  /** The form as first shown: every text empty. */
  function BlankForm(): FormData
  {
    var side := SideInput(None, None);
    FormData("", Quad(side, side, side, side), Quad(None, None, None, None), None, side)
  }

  /** Submitting the blank form reports every one of its sixteen fields at
      once, where the server's guard stops at the first failing check. */
  lemma BlankFormReportsEveryField()
    ensures forall k :: Expected(BlankForm(), k).Some?
  {
    forall k ensures Expected(BlankForm(), k).Some? {
      match k
      case NameKey => assert Trim("") == [];
      case _ =>
    }
  }

  /** A name the form accepts passes the server's name check; the converse
      fails for a name of spaces, which the server lets through. */
  lemma NameStricterThanServer(name: string)
    ensures Trim(name) != [] ==> DesignValidation.NameOk(Some(DesignValidation.JStr(name)))
    ensures Trim("   ") == [] && DesignValidation.NameOk(Some(DesignValidation.JStr("   ")))
  {
    BlankIffAllWhitespace(name);
    BlankIffAllWhitespace("   ");
  }

  /** A ratio of exactly 0 or 1 is accepted for WWR and SHGC alike, and a
      width of 0 is rejected as not positive rather than as missing. */
  lemma BoundaryFields(form: FormData, d: Direction)
    ensures form.wwr.At(d) == Some(0.0) || form.wwr.At(d) == Some(1.0) ==> Expected(form, WwrKey(d)).None?
    ensures form.shgc == Some(0.0) || form.shgc == Some(1.0) ==> Expected(form, ShgcKey).None?
    ensures form.dimensions.At(d).width == Some(0.0) ==> Expected(form, WidthKey(d)) == Some(NotPositive)
  {
  }
}
