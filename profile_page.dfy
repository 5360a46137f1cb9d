/** The profile editor (frontend/src/pages/Profile.tsx): loading and
    normalising the profile, the edits of the education and employment lists
    and of the name and phone inputs, and the checks made before saving.
    Every edit builds a new profile from the old one and is a no-op while no
    profile is loaded. Server replies are parameters. */
module ProfilePage {
  import opened Text
  import opened UserModel
  import ApiClient

  /** The loaded profile: its lists are always present. */
  datatype ProfileData = ProfileData(
    name: string,
    email: string,
    phone: string,
    education: seq<Education>,
    employment: seq<Employment>)

  /** The profile as the server sends it: the lists may be missing. */
  datatype ProfileJson = ProfileJson(
    name: string,
    email: string,
    phone: string,
    education: Option<seq<Education>>,
    employment: Option<seq<Employment>>)

  /** fetchProfile's `{ ...data, education: data.education || [], employment: data.employment || [] }`. */
  function Normalize(data: ProfileJson): (p: ProfileData)
    ensures p.name == data.name && p.email == data.email && p.phone == data.phone
    ensures data.education.Some? ==> p.education == data.education.value
    ensures data.education.None? ==> p.education == []
    ensures data.employment.Some? ==> p.employment == data.employment.value
    ensures data.employment.None? ==> p.employment == []
  {
    ProfileData(data.name, data.email, data.phone,
      if data.education.Some? then data.education.value else [],
      if data.employment.Some? then data.employment.value else [])
  }

  /** Where `splice(index, 1)` starts: a negative index counts from the end. */
  function SpliceStart(index: int, length: nat): (k: nat)
    ensures k <= length
    ensures 0 <= index <= length ==> k == index
    ensures index > length ==> k == length
    ensures index < 0 ==> k == (if length + index < 0 then 0 else length + index)
  {
    if index < 0 then (if length + index < 0 then 0 else length + index)
    else if index > length then length
    else index
  }

  /** A copy of the list with `splice(index, 1)` applied. */
  function RemoveAt<T>(s: seq<T>, index: int): (r: seq<T>)
    ensures 0 <= index < |s| ==> |r| == |s| - 1
    ensures 0 <= index < |s| ==> forall j :: 0 <= j < index ==> r[j] == s[j]
    ensures 0 <= index < |s| ==> forall j :: index <= j < |r| ==> r[j] == s[j + 1]
    ensures index >= |s| ==> r == s
    ensures index < 0 && s != [] ==> |r| == |s| - 1
  {
    var k := SpliceStart(index, |s|);
    if k < |s| then s[..k] + s[k + 1..] else s
  }

  /** Removing entry i takes out exactly that entry: what is left plus the
      removed entry is the list's multiset. */
  lemma RemoveAtMultiset<T>(s: seq<T>, index: nat)
    requires index < |s|
    ensures multiset(RemoveAt(s, index)) + multiset{s[index]} == multiset(s)
  {
    assert s == s[..index] + [s[index]] + s[index + 1..];
  }

  /** Adding an entry and then removing the last one gives the list back. */
  lemma RemoveAtUndoesAppend<T>(s: seq<T>, x: T)
    ensures RemoveAt(s + [x], |s|) == s
  {
    assert (s + [x])[..|s|] == s;
  }

  datatype EducationField = Degree | University

  /** `{ ...entry, [field]: value }` for an education entry. */
  function SetEducationField(e: Education, field: EducationField, value: string): (r: Education)
    ensures field == Degree ==> r.degree == value && r.university == e.university
    ensures field == University ==> r.university == value && r.degree == e.degree
  {
    match field
    case Degree => e.(degree := value)
    case University => e.(university := value)
  }

  /** An employment edit; the form pairs each field with a value of its type
      (`Number(...)` for experience). */
  datatype EmploymentEdit = SetCompany(company: string) | SetRole(role: string) | SetExperience(years: real)

  function ApplyEmploymentEdit(e: Employment, edit: EmploymentEdit): (r: Employment)
    ensures edit.SetCompany? ==> r == Employment(edit.company, e.role, e.experience)
    ensures edit.SetRole? ==> r == Employment(e.company, edit.role, e.experience)
    ensures edit.SetExperience? ==> r == Employment(e.company, e.role, edit.years)
  {
    match edit
    case SetCompany(c) => e.(company := c)
    case SetRole(r) => e.(role := r)
    case SetExperience(y) => e.(experience := y)
  }

  const EmptyEducation: Education := Education("", "")
  const EmptyEmployment: Employment := Employment("", "", 0.0)

  const NameRequired: string := "Name is required"
  const PhoneInvalid: string := "Phone must be a valid 10-digit number"
  const Saved: string := "Profile updated successfully!"
  const LoadFailed: string := "Failed to load profile"
  const SaveFailed: string := "Failed to update profile"

  /** `/^\d{10}$/`: exactly ten ASCII digits. */
  predicate IsPhoneNumber(phone: string) {
    |phone| == 10 && AllDigits(phone)
  }

  /** handleSubmit's checks: a blank name, then a non-empty phone that is not
      ten digits. */
  function SubmitError(p: ProfileData): (e: Option<string>)
    ensures e.None? <==> !IsBlank(p.name) && (p.phone == "" || IsPhoneNumber(p.phone))
    ensures e == Some(NameRequired) <==> IsBlank(p.name)
    ensures e == Some(PhoneInvalid) <==> !IsBlank(p.name) && p.phone != "" && !IsPhoneNumber(p.phone)
  {
    if IsBlank(p.name) then Some(NameRequired)
    else if p.phone != "" && !IsPhoneNumber(p.phone) then Some(PhoneInvalid)
    else None
  }

  /** `err?.response?.data?.message || fallback`, over what the catch block
      can see of the caught value. */
  function CatchText(c: ApiClient.Caught, fallback: string): (m: string)
    ensures c.response.Some? && c.response.value.1.Some? && c.response.value.1.value != "" ==>
      m == c.response.value.1.value
    ensures !(c.response.Some? && c.response.value.1.Some? && c.response.value.1.value != "") ==> m == fallback
  {
    match c.response
    case Some((_, message)) => if message.Some? && message.value != "" then message.value else fallback
    case None => fallback
  }

  /** The message of a failed request as written: what is caught is the
      interceptor's plain Error, which has no `response`, so the server's
      message is never found and the fallback is always shown. */
  function FailureTextAsWritten(thrown: ApiClient.Thrown, fallback: string): (m: string)
    ensures m == fallback
  {
    CatchText(ApiClient.FromThrown(thrown), fallback)
  }

  /** As written, the server's message is replaced by the fallback, where the
      same expression on the axios error would show it. */
  lemma AsWrittenDropsServerMessage(status: nat, message: string, fallback: string)
    requires message != "" && message != fallback
    ensures FailureTextAsWritten(ApiClient.ResponseInterceptor(ApiClient.HasResponse(status, Some(message))), fallback) == fallback
    ensures FailureText(ApiClient.HasResponse(status, Some(message)), fallback) == message
  {
  }

  /** The corrected page: the same expression on the axios error itself
      rather than the interceptor's Error. */
  function FailureText(e: ApiClient.AxiosError, fallback: string): (m: string)
    ensures e.HasResponse? && e.serverMessage.Some? && e.serverMessage.value != "" ==> m == e.serverMessage.value
    ensures !(e.HasResponse? && e.serverMessage.Some? && e.serverMessage.value != "") ==> m == fallback
  {
    CatchText(ApiClient.FromAxios(e), fallback)
  }

  datatype FetchResult = Loaded(data: ProfileJson) | LoadError(error: ApiClient.AxiosError)

  datatype SaveResult = Stored | SaveError(error: ApiClient.AxiosError)

  datatype TextField = NameInput | PhoneInput

  class ProfilePageState {
    var profile: Option<ProfileData>
    var errorMsg: Option<string>
    var errors: seq<string>
    var messages: seq<string>

    constructor ()
      ensures profile.None? && errorMsg.None? && errors == [] && messages == []
    {
      profile := None;
      errorMsg := None;
      errors := [];
      messages := [];
    }

    /** fetchProfile: a loaded profile always has both lists; a failure keeps
        the profile and shows the catch block's text for what the api response
        interceptor rethrew, which is always the fallback. */
    method FetchProfile(result: FetchResult)
      modifies this
      ensures result.Loaded? ==> profile == Some(Normalize(result.data)) && errorMsg.None? && errors == old(errors)
      ensures result.LoadError? ==>
        var m := FailureTextAsWritten(ApiClient.ResponseInterceptor(result.error), LoadFailed);
        profile == old(profile) && errorMsg == Some(m) && errors == [m]
      ensures messages == old(messages)
    {
      errorMsg := None;
      match result
      case Loaded(data) =>
        profile := Some(Normalize(data));
      case LoadError(error) =>
        var m := FailureTextAsWritten(ApiClient.ResponseInterceptor(error), LoadFailed);
        errorMsg := Some(m);
        errors := [m];
    }

    /** handleChange for the name and phone inputs. */
    method HandleChange(field: TextField, value: string)
      modifies this`profile
      ensures old(profile).None? ==> profile.None?
      ensures old(profile).Some? ==> profile == Some(
        if field == NameInput then old(profile).value.(name := value) else old(profile).value.(phone := value))
    {
      if profile.None? {
        return;
      }
      var p := profile.value;
      profile := Some(if field == NameInput then p.(name := value) else p.(phone := value));
    }

    /** handleEducationChange: only that field of entry i changes. */
    method HandleEducationChange(index: nat, field: EducationField, value: string)
      requires profile.Some? ==> index < |profile.value.education|
      modifies this`profile
      ensures old(profile).None? ==> profile.None?
      ensures old(profile).Some? ==> profile == Some(old(profile).value.(
        education := old(profile).value.education[index := SetEducationField(old(profile).value.education[index], field, value)]))
    {
      if profile.None? {
        return;
      }
      var updated := profile.value.education;
      updated := updated[index := SetEducationField(updated[index], field, value)];
      profile := Some(profile.value.(education := updated));
    }

    /** handleEmploymentChange: only that field of entry i changes. */
    method HandleEmploymentChange(index: nat, edit: EmploymentEdit)
      requires profile.Some? ==> index < |profile.value.employment|
      modifies this`profile
      ensures old(profile).None? ==> profile.None?
      ensures old(profile).Some? ==> profile == Some(old(profile).value.(
        employment := old(profile).value.employment[index := ApplyEmploymentEdit(old(profile).value.employment[index], edit)]))
    {
      if profile.None? {
        return;
      }
      var updated := profile.value.employment;
      updated := updated[index := ApplyEmploymentEdit(updated[index], edit)];
      profile := Some(profile.value.(employment := updated));
    }

    /** addEducation: one empty entry at the end. */
    method AddEducation()
      modifies this`profile
      ensures old(profile).None? ==> profile.None?
      ensures old(profile).Some? ==> profile == Some(old(profile).value.(education := old(profile).value.education + [EmptyEducation]))
    {
      if profile.None? {
        return;
      }
      profile := Some(profile.value.(education := profile.value.education + [EmptyEducation]));
    }

    /** addEmployment: one empty entry at the end. */
    method AddEmployment()
      modifies this`profile
      ensures old(profile).None? ==> profile.None?
      ensures old(profile).Some? ==> profile == Some(old(profile).value.(employment := old(profile).value.employment + [EmptyEmployment]))
    {
      if profile.None? {
        return;
      }
      profile := Some(profile.value.(employment := profile.value.employment + [EmptyEmployment]));
    }

    /** removeEducation. */
    method RemoveEducation(index: int)
      modifies this`profile
      ensures old(profile).None? ==> profile.None?
      ensures old(profile).Some? ==> profile == Some(old(profile).value.(education := RemoveAt(old(profile).value.education, index)))
    {
      if profile.None? {
        return;
      }
      profile := Some(profile.value.(education := RemoveAt(profile.value.education, index)));
    }

    /** removeEmployment. */
    method RemoveEmployment(index: int)
      modifies this`profile
      ensures old(profile).None? ==> profile.None?
      ensures old(profile).Some? ==> profile == Some(old(profile).value.(employment := RemoveAt(old(profile).value.employment, index)))
    {
      if profile.None? {
        return;
      }
      profile := Some(profile.value.(employment := RemoveAt(profile.value.employment, index)));
    }

    /** handleSubmit: nothing without a profile; a failed check shows its
        error and sends nothing; otherwise the profile is posted and the
        result reported (a failure, rethrown by the api response interceptor,
        shows the fallback text). Returns the profile that was posted, if any. */
    method HandleSubmit(result: SaveResult) returns (posted: Option<ProfileData>)
      modifies this`errors, this`messages
      ensures old(profile).None? ==> posted.None? && errors == old(errors) && messages == old(messages)
      ensures old(profile).Some? && SubmitError(old(profile).value).Some? ==>
        posted.None? && errors == [SubmitError(old(profile).value).value] && messages == old(messages)
      ensures posted.Some? <==> old(profile).Some? && SubmitError(old(profile).value).None?
      ensures posted.Some? ==> posted.value == profile.value
      ensures posted.Some? && result.Stored? ==> messages == old(messages) + [Saved] && errors == old(errors)
      ensures posted.Some? && result.SaveError? ==>
        errors == [FailureTextAsWritten(ApiClient.ResponseInterceptor(result.error), SaveFailed)] && messages == old(messages)
    {
      posted := None;
      if profile.None? {
        return;
      }
      var check := SubmitError(profile.value);
      if check.Some? {
        errors := [check.value];
        return;
      }
      posted := profile;
      match result
      case Stored =>
        messages := messages + [Saved];
      case SaveError(error) =>
        errors := [FailureTextAsWritten(ApiClient.ResponseInterceptor(error), SaveFailed)];
    }
  }
}
