/** `UpdateProfile` of controllers/userController.js: which fields of the
    request body become the update document and which bodies are refused,
    and the `teachingExperiences` filter of the same handler in
    controllers/user.controller.js. */
module Profiles {
  import opened Wrappers
  import opened Text
  import opened Js
  import opened Users

  /** Why a body is refused; `StatusOf` gives the HTTP status. `Crashed` is
      a TypeError inside the handler, answered by its catch clause. */
  datatype Refusal =
    | UserNotFound
    | GooglePassword
    | BadMobile
    | BadTenth
    | BadTwelfth
    | Crashed
    | MentorOnly
    | NoChanges
    | ExperienceNotArray

  function StatusOf(r: Refusal): nat {
    match r
    case UserNotFound => 404
    case MentorOnly => 403
    case Crashed => 500
    case _ => 400
  }

  /** The fields `UpdateProfile` reads from the body. */
  datatype ProfileField =
    | Name | Age | About | MobileNumber | Address | TenthPercentage | TwelfthPercentage
    | Proficiency | Subjects | ClassesOffered | Qualifications

  /** The fields every user may send, in the order the handler reads them. */
  const BaseFieldSet: set<ProfileField> :=
    {Name, Age, About, MobileNumber, Address, TenthPercentage, TwelfthPercentage}

  /** The fields only a mentor may send. */
  const MentorFieldSet: set<ProfileField> := {Proficiency, Subjects, ClassesOffered, Qualifications}

  const AllFields: set<ProfileField> := BaseFieldSet + MentorFieldSet

  /** The property name in the body and in the update document. */
  function KeyOf(f: ProfileField): string {
    match f
    case Name => "name"
    case Age => "age"
    case About => "About"
    case MobileNumber => "mobileNumber"
    case Address => "Address"
    case TenthPercentage => "tenthPercentage"
    case TwelfthPercentage => "twelfthPercentage"
    case Proficiency => "proficiency"
    case Subjects => "subjects"
    case ClassesOffered => "classesOffered"
    case Qualifications => "qualifications"
  }

  /** The fields only a mentor may send. */
  predicate MentorField(f: ProfileField) {
    f.Proficiency? || f.Subjects? || f.ClassesOffered? || f.Qualifications?
  }

  predicate TextField(f: ProfileField) {
    f.Name? || f.About? || f.Address?
  }

  /** A refusal, or the `$set` document handed to `findByIdAndUpdate`. */
  datatype Outcome = Refuse(why: Refusal) | Apply(fields: map<ProfileField, Value>)

  const MobileMin: real := 1000000000.0
  const MobileMax: real := 9999999999.0

  /** `req.body.formData || req.body`. */
  function FormOf(body: Value): Value {
    Or(Get(body, "formData"), body)
  }

  /** The field as the destructuring of the body gives it. */
  function Read(form: Value, f: ProfileField): Value {
    Get(form, KeyOf(f))
  }

  /** The field is present in the body (`!== undefined`). */
  predicate Sent(form: Value, f: ProfileField) {
    Read(form, f) != Undefined
  }

  /** `Number(v) || 0`: NaN and zero become 0. */
  function NumberOrZero(v: Value): (r: Value)
    ensures r.Num?
  {
    Or(ToNumber(v), Num(0.0))
  }

  /** The guard on a numeric field: a nonzero number outside `[lo, hi]`. */
  predicate OutOfRange(v: Value, lo: real, hi: real) {
    var x := ToNumber(v);
    x.Num? && x.n != 0.0 && (x.n < lo || x.n > hi)
  }

  /** `Array.prototype.filter` with a pure test. */
  function Filter(items: seq<Value>, keep: Value -> bool): (r: seq<Value>)
    ensures |r| <= |items|
  {
    if items == [] then []
    else if keep(items[0]) then [items[0]] + Filter(items[1..], keep)
    else Filter(items[1..], keep)
  }

  /** The filter keeps exactly the entries that pass the test. */
  lemma {:induction false} FilterMembers(items: seq<Value>, keep: Value -> bool)
    ensures forall x :: x in Filter(items, keep) <==> x in items && keep(x)
  {
    if items != [] {
      FilterMembers(items[1..], keep);
      assert items == [items[0]] + items[1..];
    }
  }

  /** `subjects.filter((subject) => subject && subject.trim())`: falsy
      entries and blank strings are dropped, and a truthy entry that is not
      a string makes `trim` throw, which gives `None`. */
  function KeepSubjects(items: seq<Value>): Option<seq<Value>> {
    if items == [] then Some([])
    else if !Truthy(items[0]) then KeepSubjects(items[1..])
    else if !items[0].Str? then None
    else
      match KeepSubjects(items[1..])
      case None => None
      case Some(rest) => if Trim(items[0].s) != "" then Some([items[0]] + rest) else Some(rest)
  }

  /** The subject filter throws exactly when some truthy entry is not a
      string; otherwise it keeps exactly the non-blank strings. */
  lemma {:induction false} KeepSubjectsMembers(items: seq<Value>)
    ensures KeepSubjects(items).None? <==> exists x :: x in items && Truthy(x) && !x.Str?
    ensures KeepSubjects(items).Some? ==>
      forall x :: x in KeepSubjects(items).value <==> x in items && x.Str? && Trim(x.s) != ""
  {
    if items != [] {
      KeepSubjectsMembers(items[1..]);
      assert items == [items[0]] + items[1..];
    }
  }

  predicate ValidClass(x: Value) {
    x.Obj? && Truthy(Get(x, "subject")) && Truthy(Get(x, "format"))
  }

  predicate ValidQualification(x: Value) {
    x.Obj? && Truthy(Get(x, "degree")) && Truthy(Get(x, "field")) && Truthy(Get(x, "institution"))
  }

  predicate ValidExperience(x: Value) {
    x.Obj? && Truthy(Get(x, "subject")) && Truthy(Get(x, "institution"))
    && (Truthy(Get(x, "from")) || Truthy(Get(x, "currentlyTeaching")))
  }

  /** Whether the update carries the field: base fields when present,
      mentor fields only for a mentor, the three arrays only when they are
      arrays. */
  predicate Included(form: Value, isMentor: bool, f: ProfileField) {
    if !MentorField(f) then Sent(form, f)
    else if f.Proficiency? then isMentor && Sent(form, f)
    else isMentor && Read(form, f).Arr?
  }

  /** What the update stores for an included field: text falls back to
      `''`, numbers to 0, the arrays are filtered. */
  function Stored(form: Value, f: ProfileField): Value {
    var v := Read(form, f);
    if TextField(f) then Or(v, Str(""))
    else if !MentorField(f) then NumberOrZero(v)
    else if !v.Arr? then v
    else if f.Subjects? then Arr(KeepSubjects(v.items).GetOr([]))
    else if f.ClassesOffered? then Arr(Filter(v.items, ValidClass))
    else if f.Qualifications? then Arr(Filter(v.items, ValidQualification))
    else v
  }


  /** The update restricted to the fields in `done`: what the handler has
      built once it has looked at those fields. */
  function Partial(form: Value, isMentor: bool, done: set<ProfileField>): map<ProfileField, Value> {
    map f | f in done && Included(form, isMentor, f) :: Stored(form, f)
  }

  /** Looking at one more field adds it exactly when it is included. */
  lemma PartialStep(form: Value, isMentor: bool, done: set<ProfileField>, f: ProfileField)
    ensures Included(form, isMentor, f) ==>
      Partial(form, isMentor, done + {f}) == Partial(form, isMentor, done)[f := Stored(form, f)]
    ensures !Included(form, isMentor, f) ==>
      Partial(form, isMentor, done + {f}) == Partial(form, isMentor, done)
  {
  }

  /** The update a body produces when nothing refuses it. */
  function Changes(form: Value, isMentor: bool): map<ProfileField, Value> {
    Partial(form, isMentor, AllFields)
  }

  /** The mentor fields of the update. */
  function MentorChanges(form: Value): map<ProfileField, Value> {
    Partial(form, true, MentorFieldSet)
  }

  lemma PartialUnion(form: Value, isMentor: bool, a: set<ProfileField>, b: set<ProfileField>)
    ensures Partial(form, isMentor, a + b) == Partial(form, isMentor, a) + Partial(form, isMentor, b)
  {
  }

  /** The role does not matter for base fields... */
  lemma BaseIgnoresRole(form: Value, done: set<ProfileField>)
    requires forall f :: f in done ==> !MentorField(f)
    ensures Partial(form, true, done) == Partial(form, false, done)
  {
  }

  /** ...and without it no mentor field is included. */
  lemma MentorNeedsRole(form: Value, done: set<ProfileField>)
    requires forall f :: f in done ==> MentorField(f)
    ensures Partial(form, false, done) == map[]
  {
  }

  /** The base fields are all a non-mentor's update can hold. */
  lemma BaseComplete(form: Value)
    ensures Partial(form, false, BaseFieldSet) == Changes(form, false)
  {
    PartialUnion(form, false, BaseFieldSet, MentorFieldSet);
    MentorNeedsRole(form, MentorFieldSet);
  }

  /** A mentor's update is the base fields plus the mentor fields. */
  lemma MentorSplit(form: Value)
    ensures Changes(form, true) == Changes(form, false) + MentorChanges(form)
  {
    calc {
      Changes(form, true);
      Partial(form, true, BaseFieldSet + MentorFieldSet);
      { PartialUnion(form, true, BaseFieldSet, MentorFieldSet); }
      Partial(form, true, BaseFieldSet) + MentorChanges(form);
      { BaseIgnoresRole(form, BaseFieldSet); }
      Partial(form, false, BaseFieldSet) + MentorChanges(form);
      { BaseComplete(form); }
      Changes(form, false) + MentorChanges(form);
    }
  }

  predicate SendsMentorField(form: Value) {
    Sent(form, Proficiency) || Sent(form, Subjects) || Sent(form, ClassesOffered)
    || Sent(form, Qualifications)
  }

  function NonEmpty(fields: map<ProfileField, Value>): Outcome {
    if fields == map[] then Refuse(NoChanges) else Apply(fields)
  }

  /** The first range check that fails, in the handler's order. */
  function RangeRefusal(form: Value): Option<Refusal> {
    if SentOutOfRange(form, MobileNumber, MobileMin, MobileMax) then Some(BadMobile)
    else if SentOutOfRange(form, TenthPercentage, 0.0, 100.0) then Some(BadTenth)
    else if SentOutOfRange(form, TwelfthPercentage, 0.0, 100.0) then Some(BadTwelfth)
    else None
  }

  /** A field that was sent and fails its range check. */
  predicate SentOutOfRange(form: Value, f: ProfileField, lo: real, hi: real) {
    Sent(form, f) && OutOfRange(Read(form, f), lo, hi)
  }

  /** The handler's decision, checks in the order it makes them. */
  function Decide(body: Value, user: Option<UserDoc>): Outcome {
    var form := FormOf(body);
    if user.None? then Refuse(UserNotFound)
    else if Truthy(Get(body, "password")) && user.value.isGoogleUser then Refuse(GooglePassword)
    else if RangeRefusal(form).Some? then Refuse(RangeRefusal(form).value)
    else if user.value.role == Some(Mentor) then
      var subjects := Read(form, Subjects);
      if subjects.Arr? && KeepSubjects(subjects.items).None? then Refuse(Crashed)
      else NonEmpty(Changes(form, true))
    else if SendsMentorField(form) then Refuse(MentorOnly)
    else NonEmpty(Changes(form, false))
  }

  /** `UpdateProfile`: the account checks, the base fields, the mentor
      fields, and the refusal of an empty update. `user` is what `findById`
      returned for the caller. */
  method UpdateProfile(body: Value, user: Option<UserDoc>) returns (out: Outcome)
    ensures out == Decide(body, user)
  {
    var form := FormOf(body);
    if user.None? {
      return Refuse(UserNotFound);
    }
    var u := user.value;
    if Truthy(Get(body, "password")) && u.isGoogleUser {
      return Refuse(GooglePassword);
    }
    var base := BaseFields(form);
    if base.Err? {
      return Refuse(base.error);
    }
    var fields := base.value;
    if u.role == Some(Mentor) {
      var extra := MentorFields(form);
      if extra.Err? {
        return Refuse(extra.error);
      }
      MentorSplit(form);
      fields := fields + extra.value;
    } else if SendsMentorField(form) {
      return Refuse(MentorOnly);
    }
    if fields == map[] {
      return Refuse(NoChanges);
    }
    out := Apply(fields);
  }

  /** The base fields, added to the update one by one as the handler does,
      with the three range checks on the way. */
  method BaseFields(form: Value) returns (r: Result<map<ProfileField, Value>, Refusal>)
    ensures RangeRefusal(form).Some? ==> r == Err(RangeRefusal(form).value)
    ensures RangeRefusal(form).None? ==> r == Ok(Changes(form, false))
  {
    var checked := LeadingFields(form);
    if checked.Err? {
      return checked;
    }
    r := TrailingFields(form, checked.value);
    if r.Ok? {
      BaseComplete(form);
    }
  }

  /** Address and the two percentages, the last three base fields. */
  method TrailingFields(form: Value, fields: map<ProfileField, Value>)
    returns (r: Result<map<ProfileField, Value>, Refusal>)
    requires fields == Partial(form, false, {Name, Age, About, MobileNumber})
    ensures SentOutOfRange(form, TenthPercentage, 0.0, 100.0) ==> r == Err(BadTenth)
    ensures !SentOutOfRange(form, TenthPercentage, 0.0, 100.0) ==>
              (SentOutOfRange(form, TwelfthPercentage, 0.0, 100.0) ==> r == Err(BadTwelfth))
    ensures !SentOutOfRange(form, TenthPercentage, 0.0, 100.0) ==>
              (!SentOutOfRange(form, TwelfthPercentage, 0.0, 100.0) ==>
                 r == Ok(Partial(form, false, BaseFieldSet)))
  {
    ghost var done: set<ProfileField> := {Name, Age, About, MobileNumber};
    var more := AddPlain(form, fields, done, Address);
    done := done + {Address};
    r := AddChecked(form, more, done, TenthPercentage, 0.0, 100.0, BadTenth);
    if r.Err? {
      return;
    }
    done := done + {TenthPercentage};
    r := AddChecked(form, r.value, done, TwelfthPercentage, 0.0, 100.0, BadTwelfth);
    if r.Err? {
      return;
    }
    done := done + {TwelfthPercentage};
    assert done == BaseFieldSet;
  }

  /** Name, age, about and the mobile number, the first four base fields. */
  method LeadingFields(form: Value) returns (r: Result<map<ProfileField, Value>, Refusal>)
    ensures Sent(form, MobileNumber) && OutOfRange(Read(form, MobileNumber), MobileMin, MobileMax) ==>
      r == Err(BadMobile)
    ensures !(Sent(form, MobileNumber) && OutOfRange(Read(form, MobileNumber), MobileMin, MobileMax)) ==>
      r == Ok(Partial(form, false, {Name, Age, About, MobileNumber}))
  {
    var fields: map<ProfileField, Value> := map[];
    ghost var done: set<ProfileField> := {};
    fields := AddPlain(form, fields, done, Name);
    done := done + {Name};
    fields := AddPlain(form, fields, done, Age);
    done := done + {Age};
    fields := AddPlain(form, fields, done, About);
    done := done + {About};
    r := AddChecked(form, fields, done, MobileNumber, MobileMin, MobileMax, BadMobile);
    assert done + {MobileNumber} == {Name, Age, About, MobileNumber};
  }

  /** One unchecked base field: a present value is stored (text falling back
      to `''`, a number to 0). */
  method AddPlain(form: Value, fields: map<ProfileField, Value>, ghost done: set<ProfileField>,
                  f: ProfileField) returns (r: map<ProfileField, Value>)
    requires !MentorField(f)
    requires fields == Partial(form, false, done)
    ensures r == Partial(form, false, done + {f})
  {
    r := fields;
    if Sent(form, f) {
      var v := Read(form, f);
      if TextField(f) {
        r := r[f := Or(v, Str(""))];
      } else {
        r := r[f := Or(ToNumber(v), Num(0.0))];
      }
    }
    PartialStep(form, false, done, f);
  }

  /** One range-checked numeric field: a nonzero number outside `[lo, hi]`
      refuses the body, anything else is stored as `Number(v) || 0`. */
  method AddChecked(form: Value, fields: map<ProfileField, Value>, ghost done: set<ProfileField>,
                    f: ProfileField, lo: real, hi: real, why: Refusal)
    returns (r: Result<map<ProfileField, Value>, Refusal>)
    requires !MentorField(f) && !TextField(f)
    requires fields == Partial(form, false, done)
    ensures Sent(form, f) && OutOfRange(Read(form, f), lo, hi) ==> r == Err(why)
    ensures !(Sent(form, f) && OutOfRange(Read(form, f), lo, hi)) ==>
      r == Ok(Partial(form, false, done + {f}))
  {
    var result := fields;
    if Sent(form, f) {
      var x := ToNumber(Read(form, f));
      if Truthy(x) && (x.n < lo || x.n > hi) {
        return Err(why);
      }
      result := result[f := Or(x, Num(0.0))];
    }
    PartialStep(form, false, done, f);
    r := Ok(result);
  }

  /** The mentor fields, added one by one; a non-string subject makes the
      subject filter throw. */
  method MentorFields(form: Value) returns (r: Result<map<ProfileField, Value>, Refusal>)
    ensures var subjects := Read(form, Subjects);
      if subjects.Arr? && KeepSubjects(subjects.items).None? then r == Err(Crashed)
      else r == Ok(MentorChanges(form))
  {
    var fields: map<ProfileField, Value> := map[];
    ghost var done: set<ProfileField> := {};
    if Sent(form, Proficiency) {
      fields := fields[Proficiency := Read(form, Proficiency)];
    }
    PartialStep(form, true, done, Proficiency);
    done := done + {Proficiency};
    var subjects := Read(form, Subjects);
    if subjects.Arr? {
      var kept := KeepSubjects(subjects.items);
      if kept.None? {
        return Err(Crashed);
      }
      fields := fields[Subjects := Arr(kept.value)];
    }
    PartialStep(form, true, done, Subjects);
    done := done + {Subjects};
    var classes := Read(form, ClassesOffered);
    if classes.Arr? {
      fields := fields[ClassesOffered := Arr(Filter(classes.items, ValidClass))];
    }
    PartialStep(form, true, done, ClassesOffered);
    done := done + {ClassesOffered};
    var qualifications := Read(form, Qualifications);
    if qualifications.Arr? {
      fields := fields[Qualifications := Arr(Filter(qualifications.items, ValidQualification))];
    }
    PartialStep(form, true, done, Qualifications);
    done := done + {Qualifications};
    assert done == MentorFieldSet;
    r := Ok(fields);
  }

  /** The `teachingExperiences` branch for a mentor: an absent field
      (`undefined`) skips the branch and writes nothing (`None`); any other
      non-array is refused (400); an array keeps exactly the entries with a
      subject, an institution and either a start date or `currentlyTeaching`. */
  function TeachingExperiences(v: Value): (r: Result<Option<seq<Value>>, Refusal>)
    ensures r == Ok(None) <==> v == Undefined
    ensures r.Err? <==> v != Undefined && !v.Arr?
    ensures r.Err? ==> r.error == ExperienceNotArray
    ensures r.Ok? && r.value.Some? ==>
      v.Arr? && forall x :: x in r.value.value <==> x in v.items && ValidExperience(x)
  {
    if v == Undefined then Ok(None)
    else if !v.Arr? then Err(ExperienceNotArray)
    else
      FilterMembers(v.items, ValidExperience);
      Ok(Some(Filter(v.items, ValidExperience)))
  }

  // ----- Properties ------------------------------------------------------------

  /** A stored mobile number is 0 or has ten digits. */
  lemma StoredMobileInRange(body: Value, user: Option<UserDoc>)
    requires Decide(body, user).Apply? && MobileNumber in Decide(body, user).fields
    ensures var m := Decide(body, user).fields[MobileNumber];
      m == Num(0.0) || (m.Num? && MobileMin <= m.n <= MobileMax)
  {
    var form := FormOf(body);
    var isMentor := AppliedRole(body, user);
    assert Decide(body, user).fields[MobileNumber] == Stored(form, MobileNumber);
    assert Sent(form, MobileNumber);
  }

  /** A stored percentage is 0 or lies in [0, 100]. */
  lemma StoredPercentagesInRange(body: Value, user: Option<UserDoc>, f: ProfileField)
    requires f == TenthPercentage || f == TwelfthPercentage
    requires Decide(body, user).Apply? && f in Decide(body, user).fields
    ensures var p := Decide(body, user).fields[f];
      p.Num? && 0.0 <= p.n <= 100.0
  {
    var form := FormOf(body);
    var isMentor := AppliedRole(body, user);
    assert Decide(body, user).fields[f] == Stored(form, f);
    assert Sent(form, f);
  }

  /** An accepted update passed the range checks and holds the fields the
      caller's role admits. */
  lemma AppliedRole(body: Value, user: Option<UserDoc>) returns (isMentor: bool)
    requires Decide(body, user).Apply?
    ensures RangeRefusal(FormOf(body)).None?
    ensures Decide(body, user).fields == Changes(FormOf(body), isMentor)
  {
    isMentor := user.value.role == Some(Mentor);
  }

  /** A user who is not a mentor never writes a mentor field: a body
      carrying one is refused, with 403 unless an earlier check refused it. */
  lemma NonMentorNeverWritesMentorFields(body: Value, user: Option<UserDoc>)
    requires user.Some? && user.value.role != Some(Mentor)
    ensures Decide(body, user).Apply? ==> forall f :: f in Decide(body, user).fields ==> !MentorField(f)
    ensures SendsMentorField(FormOf(body)) ==> Decide(body, user).Refuse?
  {
  }

  /** An accepted update is never empty, and each field in it was sent. */
  lemma UpdateNeverEmpty(body: Value, user: Option<UserDoc>)
    ensures Decide(body, user).Apply? ==>
      Decide(body, user).fields != map[]
      && forall f :: f in Decide(body, user).fields ==> Sent(FormOf(body), f)
  {
  }

  /** Stored subjects are non-blank strings taken from the body. */
  lemma StoredSubjectsNonBlank(body: Value, user: Option<UserDoc>)
    requires Decide(body, user).Apply? && Subjects in Decide(body, user).fields
    ensures var s := Decide(body, user).fields[Subjects];
      s.Arr? && Read(FormOf(body), Subjects).Arr?
      && (forall x :: x in s.items ==> x.Str? && Trim(x.s) != "")
      && (forall x :: x in s.items ==> x in Read(FormOf(body), Subjects).items)
  {
    KeepSubjectsMembers(Read(FormOf(body), Subjects).items);
  }

  /** A mobile number of fewer than ten digits is refused with 400 also
      when it arrives as a one-element array, which `Number` reads through
      its item. */
  lemma MobileInArrayChecked(n: nat, user: UserDoc)
    requires 0 < n < 1000000000
    ensures Decide(Obj(map["mobileNumber" := Arr([Str(Show(n))])]), Some(user)) == Refuse(BadMobile)
  {
    var body := Obj(map["mobileNumber" := Arr([Str(Show(n))])]);
    ArrayOfDigits(n);
    assert FormOf(body) == body;
    assert Read(body, MobileNumber) == Arr([Str(Show(n))]);
    assert SentOutOfRange(body, MobileNumber, MobileMin, MobileMax);
    assert RangeRefusal(body) == Some(BadMobile);
    assert Get(body, "password") == Undefined;
  }

  /** A body with nothing to change is refused with 400. */
  lemma EmptyBodyRefused(user: UserDoc)
    ensures Decide(Obj(map[]), Some(user)) == Refuse(NoChanges)
  {
    assert Changes(Obj(map[]), user.role == Some(Mentor)) == map[];
  }

  /** A Google account that sends a password is refused before any field
      is looked at. */
  lemma GooglePasswordFirst(body: Value, user: UserDoc)
    requires user.isGoogleUser && Truthy(Get(body, "password"))
    ensures Decide(body, Some(user)) == Refuse(GooglePassword)
  {
  }
}
