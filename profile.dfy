/**
 * The profile screen (src/Screen/Profile.js): the fetched user record is
 * turned into the six text fields of the form, the inputs edit one field
 * each, and the update is sent to the path named by the roll number.
 */
module Profile {
  import opened Common

  /** A field of the fetched user record, as the server may send it. */
  datatype JsValue = Undefined | Null | Str(s: string) | Num(n: int) | StrArray(items: seq<string>)

  predicate Truthy(v: JsValue)
  {
    match v
    case Undefined => false
    case Null => false
    case Str(s) => s != ""
    case Num(n) => n != 0
    case StrArray(_) => true
  }

  /** `s` is a non-empty run of decimal digits. */
  predicate IsDigits(s: string)
  {
    |s| > 0 && forall i :: 0 <= i < |s| ==> '0' <= s[i] <= '9'
  }

  /** The number a run of decimal digits denotes, most significant digit first. */
  ghost function DecimalValue(s: string): nat
    requires forall i :: 0 <= i < |s| ==> '0' <= s[i] <= '9'
  {
    if s == [] then 0 else DecimalValue(s[..|s| - 1]) * 10 + (s[|s| - 1] as int - '0' as int)
  }

  function DigitChar(d: nat): (c: char)
    requires d < 10
    ensures '0' <= c <= '9' && c as int - '0' as int == d
  {
    "0123456789"[d]
  }

  /** The decimal digits of `n`: they denote `n`, with no leading zero. */
  function NatToString(n: nat): (r: string)
    ensures IsDigits(r)
    ensures DecimalValue(r) == n
    ensures r[0] == '0' ==> r == "0"
  {
    if n < 10 then [DigitChar(n)]
    else
      var r := NatToString(n / 10) + [DigitChar(n % 10)];
      assert r[..|r| - 1] == NatToString(n / 10);
      r
  }

  /**
   * `String(v)`: "undefined", "null", the string itself, the decimal
   * notation of a number (a minus sign, then digits without a leading zero),
   * or the items joined with ",".
   */
  function JsString(v: JsValue): (r: string)
    ensures v.Undefined? ==> r == "undefined"
    ensures v.Null? ==> r == "null"
    ensures v.Str? ==> r == v.s
    ensures v.Num? && v.n >= 0 ==> IsDigits(r) && DecimalValue(r) == v.n && (r[0] == '0' ==> r == "0")
    ensures v.Num? && v.n < 0 ==>
              |r| > 1 && r[0] == '-' && IsDigits(r[1..]) && DecimalValue(r[1..]) == -v.n && r[1] != '0'
    ensures v.StrArray? ==> r == Join(v.items, ",")
  {
    match v
    case Undefined => "undefined"
    case Null => "null"
    case Str(s) => s
    case Num(n) =>
      if n < 0 then
        var digits := NatToString(-n);
        assert ("-" + digits)[1..] == digits;
        "-" + digits
      else NatToString(n)
    case StrArray(items) => Join(items, ",")
  }

  /** `v || fallback`, as the text the input then shows. */
  function OrDefault(v: JsValue, fallback: string): (r: string)
    ensures Truthy(v) ==> r == JsString(v)
    ensures !Truthy(v) ==> r == fallback
  {
    if Truthy(v) then JsString(v) else fallback
  }

  /** The fetched user record. */
  datatype UserData = UserData(email: JsValue, roles: JsValue, department: JsValue,
                               classRoom: JsValue, rollNo: JsValue, year: JsValue)

  /** The form behind the six inputs. */
  datatype ProfileForm = ProfileForm(email: string, roles: string, department: string,
                                     classRoom: string, rollNo: string, year: string)

  const EmptyForm := ProfileForm("", "", "", "", "", "")

  /** The roles text: a list joined with ", ", anything else `|| ""`. */
  function RolesText(roles: JsValue): (r: string)
    ensures roles.StrArray? ==> r == Join(roles.items, ", ")
    ensures !roles.StrArray? && Truthy(roles) ==> r == JsString(roles)
    ensures !Truthy(roles) ==> r == ""
  {
    if roles.StrArray? then Join(roles.items, ", ") else OrDefault(roles, "")
  }

  /** `String(rollNo) || ""` */
  function RollNoText(rollNo: JsValue): (r: string)
  {
    OrElse(JsString(rollNo), "")
  }

  /**
   * The `|| ""` after `String(...)` never changes anything: the text is
   * `String(rollNo)` itself, so a missing roll number reads "undefined"
   * and a null one "null".
   */
  lemma RollNoFallbackNeverApplies(rollNo: JsValue)
    ensures RollNoText(rollNo) == JsString(rollNo)
    ensures rollNo.Undefined? ==> RollNoText(rollNo) == "undefined"
    ensures rollNo.Null? ==> RollNoText(rollNo) == "null"
    ensures rollNo.Num? ==> RollNoText(rollNo) != ""
  {
  }

  /** The form filled from a fetched record. */
  function Normalize(u: UserData): (f: ProfileForm)
    ensures f.email == OrDefault(u.email, "")
    ensures f.roles == RolesText(u.roles)
    ensures f.department == OrDefault(u.department, "") && f.classRoom == OrDefault(u.classRoom, "")
    ensures f.rollNo == JsString(u.rollNo)
    ensures f.year == OrDefault(u.year, "I")
  {
    ProfileForm(OrDefault(u.email, ""), RolesText(u.roles), OrDefault(u.department, ""),
                OrDefault(u.classRoom, ""), RollNoText(u.rollNo), OrDefault(u.year, "I"))
  }

  /** A record whose fields are all non-empty strings comes through unchanged. */
  lemma NormalizeKeepsStrings(email: string, roles: string, department: string,
                              classRoom: string, rollNo: string, year: string)
    requires email != "" && roles != "" && department != "" && classRoom != "" && year != ""
    ensures Normalize(UserData(Str(email), Str(roles), Str(department), Str(classRoom), Str(rollNo), Str(year)))
         == ProfileForm(email, roles, department, classRoom, rollNo, year)
  {
  }

  /** A record with every field absent fills only the year ("I") and the roll number ("undefined"). */
  lemma NormalizeOfEmptyRecord()
    ensures Normalize(UserData(Undefined, Undefined, Undefined, Undefined, Undefined, Undefined))
         == ProfileForm("", "", "", "", "undefined", "I")
  {
  }

  /** The keys `handleChange` is called with, plus the roll number. */
  datatype ProfileKey = Email | Roles | Department | ClassRoom | RollNo | Year

  function Get(form: ProfileForm, key: ProfileKey): string
  {
    match key
    case Email => form.email
    case Roles => form.roles
    case Department => form.department
    case ClassRoom => form.classRoom
    case RollNo => form.rollNo
    case Year => form.year
  }

  /** `{ ...formData, [key]: value }` */
  function Update(form: ProfileForm, key: ProfileKey, value: string): (next: ProfileForm)
    ensures Get(next, key) == value
    ensures forall k :: k != key ==> Get(next, k) == Get(form, k)
  {
    match key
    case Email => form.(email := value)
    case Roles => form.(roles := value)
    case Department => form.(department := value)
    case ClassRoom => form.(classRoom := value)
    case RollNo => form.(rollNo := value)
    case Year => form.(year := value)
  }

  /** The form is determined by its six fields. */
  lemma FormExtensionality(a: ProfileForm, b: ProfileForm)
    requires forall k :: Get(a, k) == Get(b, k)
    ensures a == b
  {
    assert Get(a, Email) == Get(b, Email) && Get(a, Roles) == Get(b, Roles);
    assert Get(a, Department) == Get(b, Department) && Get(a, ClassRoom) == Get(b, ClassRoom);
    assert Get(a, RollNo) == Get(b, RollNo) && Get(a, Year) == Get(b, Year);
  }

  /** Writing back a field's own value changes nothing; a second write to a key overrides the first. */
  lemma {:induction false} UpdateLaws(form: ProfileForm, key: ProfileKey, v: string, w: string)
    ensures Update(form, key, Get(form, key)) == form
    ensures Update(Update(form, key, v), key, w) == Update(form, key, w)
  {
    FormExtensionality(Update(form, key, Get(form, key)), form);
    FormExtensionality(Update(Update(form, key, v), key, w), Update(form, key, w));
  }

  /** The body of a profile response: the record (when there is one) and the server's message. */
  datatype ProfileResponse = ProfileResponse(data: Option<UserData>, message: string)

  /** The update request: its path and body. */
  datatype UpdateRequest = UpdateRequest(path: string, body: ProfileForm)

  function UpdatePath(form: ProfileForm): (path: string)
    ensures path == "/api/updateprofile/" + form.rollNo
    ensures "/api/updateprofile/" <= path
  {
    "/api/updateprofile/" + form.rollNo
  }

  class ProfileScreen {
    var user: Option<UserData>
    var loading: bool
    var formData: ProfileForm

    constructor ()
      ensures user == None && loading && formData == EmptyForm
    {
      user := None;
      loading := true;
      formData := EmptyForm;
    }

    /**
     * `fetchData`: without a stored token an error and no request.  A
     * success carrying a record stores it and fills the form; any other
     * response alerts its message (or "User data not found"), an exception
     * its own message.  Loading ends in every case.
     */
    method FetchData(hasToken: bool, res: Outcome<ProfileResponse>) returns (alert: Option<Alert>)
      modifies this
      ensures !loading
      ensures !hasToken ==> alert == Some(Alert("Error", "No authentication token found. Please log in."))
      ensures !hasToken ==> user == old(user) && formData == old(formData)
      ensures hasToken && res.Success? && res.data.data.Some? ==>
        alert.None? && user == res.data.data && formData == Normalize(res.data.data.value)
      ensures hasToken && res.Success? && res.data.data.None? ==>
        alert == Some(Alert("Error", OrElse(res.data.message, "User data not found")))
      ensures hasToken && res.Failure? ==> alert == Some(Alert("Error", OrElse(res.message, "User data not found")))
      ensures hasToken && res.Threw? ==> alert == Some(Alert("Error", res.message))
      ensures alert.Some? ==> user == old(user) && formData == old(formData)
    {
      if !hasToken {
        alert := Some(Alert("Error", "No authentication token found. Please log in."));
        loading := false;
        return;
      }
      match res {
        case Success(body) =>
          if body.data.Some? {
            user := body.data;
            formData := Normalize(body.data.value);
            alert := None;
          } else {
            alert := Some(Alert("Error", OrElse(body.message, "User data not found")));
          }
        case Failure(message) =>
          alert := Some(Alert("Error", OrElse(message, "User data not found")));
        case Threw(message) =>
          alert := Some(Alert("Error", message));
      }
      loading := false;
    }

    /** `handleChange(key, value)` */
    method HandleChange(key: ProfileKey, value: string)
      modifies this
      ensures formData == Update(old(formData), key, value)
      ensures user == old(user) && loading == old(loading)
    {
      formData := Update(formData, key, value);
    }

    /**
     * `handleSubmit`: the whole form is sent to the path of its roll
     * number; a success alerts and navigates to the dashboard, a refusal
     * alerts the server's message (or a fallback), an exception a fixed
     * error.  The screen's state does not change.
     */
    method HandleSubmit(res: Outcome<()>) returns (request: UpdateRequest, alert: Alert, navigateTo: Option<string>)
      ensures request == UpdateRequest(UpdatePath(formData), formData)
      ensures navigateTo.Some? <==> res.Success?
      ensures res.Success? ==> navigateTo == Some("Dashboard") && alert == Alert("Success", "Profile updated successfully")
      ensures res.Failure? ==> alert == Alert("Error", OrElse(res.message, "Failed to update profile"))
      ensures res.Threw? ==> alert == Alert("Error", "Profile update failed")
    {
      request := UpdateRequest(UpdatePath(formData), formData);
      match res {
        case Success(_) =>
          alert := Alert("Success", "Profile updated successfully");
          navigateTo := Some("Dashboard");
        case Failure(message) =>
          alert := Alert("Error", OrElse(message, "Failed to update profile"));
          navigateTo := None;
        case Threw(_) =>
          alert := Alert("Error", "Profile update failed");
          navigateTo := None;
      }
    }
  }
}
