/**
 * The form component of frontend/src/components/AnalysisForm.tsx: the form state
 * (one text value per control), the change handler that updates one control's
 * value, and the submit handler's construction of the request payload, in which
 * an empty control means "not provided" and its key is left out.
 */
module AnalysisForm {
  import opened Options
  import opened JsParseInt

  /** The eleven controls of the form, one per field of the request. */
  datatype Field =
    | Username | Followers | Following | Posts | AccountAgeDays
    | Verified | Visibility | HasProfilePic | BioText | BioLinks | DmActivity

  const AllFields: set<Field> :=
    {Username, Followers, Following, Posts, AccountAgeDays, Verified, Visibility, HasProfilePic, BioText, BioLinks, DmActivity}

  /** The property name a field has in the form state and in the payload. */
  function Name(f: Field): string
  {
    match f
    case Username => "username"
    case Followers => "followers"
    case Following => "following"
    case Posts => "posts"
    case AccountAgeDays => "account_age_days"
    case Verified => "verified"
    case Visibility => "visibility"
    case HasProfilePic => "has_profile_pic"
    case BioText => "bio_text"
    case BioLinks => "bio_links"
    case DmActivity => "dm_activity"
  }

  /** Fields sent as `parseInt` of their text. */
  predicate IsNumeric(f: Field)
  {
    f in {Followers, Following, Posts, AccountAgeDays}
  }

  /** The form state: the text currently in each control. */
  datatype FormData = FormData(
    username: string,
    followers: string,
    following: string,
    posts: string,
    accountAgeDays: string,
    verified: string,
    visibility: string,
    hasProfilePic: string,
    bioText: string,
    bioLinks: string,
    dmActivity: string)

  /** The state before any input: every control empty. */
  const InitialForm := FormData("", "", "", "", "", "", "", "", "", "", "")

  /** The text of one control. */
  function Get(form: FormData, f: Field): string
  {
    match f
    case Username => form.username
    case Followers => form.followers
    case Following => form.following
    case Posts => form.posts
    case AccountAgeDays => form.accountAgeDays
    case Verified => form.verified
    case Visibility => form.visibility
    case HasProfilePic => form.hasProfilePic
    case BioText => form.bioText
    case BioLinks => form.bioLinks
    case DmActivity => form.dmActivity
  }

  /**
   * `handleChange`: a copy of the state with the control that raised the event set
   * to the event's value; every other control keeps its text.
   */
  function HandleChange(form: FormData, target: Field, value: string): (next: FormData)
    ensures Get(next, target) == value
    ensures forall f :: f != target ==> Get(next, f) == Get(form, f)
  {
    match target
    case Username => form.(username := value)
    case Followers => form.(followers := value)
    case Following => form.(following := value)
    case Posts => form.(posts := value)
    case AccountAgeDays => form.(accountAgeDays := value)
    case Verified => form.(verified := value)
    case Visibility => form.(visibility := value)
    case HasProfilePic => form.(hasProfilePic := value)
    case BioText => form.(bioText := value)
    case BioLinks => form.(bioLinks := value)
    case DmActivity => form.(dmActivity := value)
  }

  /** A value of the request payload: a string, a `parseInt` result or a boolean. */
  datatype ApiValue = Text(text: string) | Number(number: JsInt) | Flag(flag: bool)

  /** What a control's text becomes in the payload. */
  function EncodeValue(f: Field, value: string): ApiValue
  {
    if IsNumeric(f) then Number(ParseInt(value))
    else if f == Verified then Flag(value == "yes")
    else Text(value)
  }

  /**
   * The property a control contributes to the payload: `username` always, the
   * others only when their text is non-empty (None: the key is left out).
   */
  function Encoded(form: FormData, f: Field): Option<ApiValue>
  {
    if f != Username && Get(form, f) == "" then None else Some(EncodeValue(f, Get(form, f)))
  }

  /**
   * The object `handleSubmit` posts: `username` always, every other property
   * optional (None: the key is absent). Its type admits no other key.
   */
  datatype ApiData = ApiData(
    username: string,
    followers: Option<JsInt>,
    following: Option<JsInt>,
    posts: Option<JsInt>,
    accountAgeDays: Option<JsInt>,
    verified: Option<bool>,
    visibility: Option<string>,
    hasProfilePic: Option<string>,
    bioText: Option<string>,
    bioLinks: Option<string>,
    dmActivity: Option<string>)

  /** The payload object with only its `username` key. */
  function UsernameOnly(username: string): ApiData
  {
    ApiData(username, None, None, None, None, None, None, None, None, None, None)
  }

  /** The property `f` of the posted object, if the key is present. */
  function Entry(apiData: ApiData, f: Field): Option<ApiValue>
  {
    match f
    case Username => Some(Text(apiData.username))
    case Followers => if apiData.followers.Some? then Some(Number(apiData.followers.value)) else None
    case Following => if apiData.following.Some? then Some(Number(apiData.following.value)) else None
    case Posts => if apiData.posts.Some? then Some(Number(apiData.posts.value)) else None
    case AccountAgeDays =>
      if apiData.accountAgeDays.Some? then Some(Number(apiData.accountAgeDays.value)) else None
    case Verified => if apiData.verified.Some? then Some(Flag(apiData.verified.value)) else None
    case Visibility => if apiData.visibility.Some? then Some(Text(apiData.visibility.value)) else None
    case HasProfilePic => if apiData.hasProfilePic.Some? then Some(Text(apiData.hasProfilePic.value)) else None
    case BioText => if apiData.bioText.Some? then Some(Text(apiData.bioText.value)) else None
    case BioLinks => if apiData.bioLinks.Some? then Some(Text(apiData.bioLinks.value)) else None
    case DmActivity => if apiData.dmActivity.Some? then Some(Text(apiData.dmActivity.value)) else None
  }

  /**
   * The posted object as its JSON text has it: each key present maps to its value.
   * The keys are the property names of the fields present, and nothing else.
   */
  function Properties(apiData: ApiData): (props: map<string, ApiValue>)
    ensures forall f :: Name(f) in props <==> Entry(apiData, f).Some?
    ensures forall f :: Name(f) in props ==> Some(props[Name(f)]) == Entry(apiData, f)
    ensures forall key :: key in props ==> exists f :: Name(f) == key
  {
    NamesInjective();
    map f | f in AllFields && Entry(apiData, f).Some? :: Name(f) := Entry(apiData, f).value
  }

  /** A property that is sent only when its control's text is non-empty. */
  ghost function IfFilled<T>(text: string, v: T): Option<T>
  {
    if text == "" then None else Some(v)
  }

  /**
   * The payload after the first `k` statements of `handleSubmit` (the username
   * statement counts as the first): the later optional properties are still absent.
   */
  ghost function PayloadUpTo(form: FormData, k: nat): ApiData
  {
    ApiData(
      form.username,
      if k > 1 then IfFilled(form.followers, ParseInt(form.followers)) else None,
      if k > 2 then IfFilled(form.following, ParseInt(form.following)) else None,
      if k > 3 then IfFilled(form.posts, ParseInt(form.posts)) else None,
      if k > 4 then IfFilled(form.accountAgeDays, ParseInt(form.accountAgeDays)) else None,
      if k > 5 then IfFilled(form.verified, form.verified == "yes") else None,
      if k > 6 then IfFilled(form.visibility, form.visibility) else None,
      if k > 7 then IfFilled(form.hasProfilePic, form.hasProfilePic) else None,
      if k > 8 then IfFilled(form.bioText, form.bioText) else None,
      if k > 9 then IfFilled(form.bioLinks, form.bioLinks) else None,
      if k > 10 then IfFilled(form.dmActivity, form.dmActivity) else None)
  }

  /** Once all eleven statements have run, every property is its control's encoding. */
  lemma CompletePayloadEncodesEveryField(form: FormData)
    ensures forall f :: Entry(PayloadUpTo(form, 11), f) == Encoded(form, f)
  {
  }

  /**
   * The keys of a payload that encodes the form, as `HandleSubmit`'s result does:
   * "username", and the name of each other field whose control is non-empty; no
   * other key.
   */
  lemma SubmittedKeys(apiData: ApiData, form: FormData)
    requires forall f :: Entry(apiData, f) == Encoded(form, f)
    ensures forall f :: Name(f) in Properties(apiData) <==> f == Username || Get(form, f) != ""
    ensures forall key :: key in Properties(apiData) ==> exists f :: Name(f) == key && (f == Username || Get(form, f) != "")
  {
    forall f ensures Name(f) in Properties(apiData) <==> f == Username || Get(form, f) != "" {
      EncodedIffSent(form, f);
    }
  }


  /** A field has a property in the payload exactly when it is `username` or its text is non-empty. */
  lemma EncodedIffSent(form: FormData, f: Field)
    ensures Encoded(form, f).Some? <==> f == Username || Get(form, f) != ""
  {
  }

  /**
   * The payload construction in `handleSubmit`: start from the username, then add
   * each optional property in turn when its control's text is non-empty. Every
   * property of the result is its control's encoding. The ten guarded statements,
   * in their source order, are in `AddCounts` and `AddDetails`.
   */
  method HandleSubmit(formData: FormData) returns (apiData: ApiData)
    ensures forall f :: Entry(apiData, f) == Encoded(formData, f)
  {
    apiData := UsernameOnly(formData.username);
    apiData := AddCounts(apiData, formData);
    apiData := AddDetails(apiData, formData);
    CompletePayloadEncodesEveryField(formData);
  }

  /** The statements of `handleSubmit` that add the four counts, as `parseInt` of their text. */
  method AddCounts(start: ApiData, formData: FormData) returns (apiData: ApiData)
    requires start == PayloadUpTo(formData, 1)
    ensures apiData == PayloadUpTo(formData, 5)
  {
    apiData := start;
    if formData.followers != "" { apiData := apiData.(followers := Some(ParseInt(formData.followers))); }
    assert apiData == PayloadUpTo(formData, 2);
    if formData.following != "" { apiData := apiData.(following := Some(ParseInt(formData.following))); }
    assert apiData == PayloadUpTo(formData, 3);
    if formData.posts != "" { apiData := apiData.(posts := Some(ParseInt(formData.posts))); }
    assert apiData == PayloadUpTo(formData, 4);
    if formData.accountAgeDays != "" { apiData := apiData.(accountAgeDays := Some(ParseInt(formData.accountAgeDays))); }
  }

  /** The statements of `handleSubmit` that add `verified` as a boolean and the five texts verbatim. */
  method AddDetails(start: ApiData, formData: FormData) returns (apiData: ApiData)
    requires start == PayloadUpTo(formData, 5)
    ensures apiData == PayloadUpTo(formData, 11)
  {
    apiData := start;
    if formData.verified != "" { apiData := apiData.(verified := Some(formData.verified == "yes")); }
    assert apiData == PayloadUpTo(formData, 6);
    if formData.visibility != "" { apiData := apiData.(visibility := Some(formData.visibility)); }
    assert apiData == PayloadUpTo(formData, 7);
    if formData.hasProfilePic != "" { apiData := apiData.(hasProfilePic := Some(formData.hasProfilePic)); }
    assert apiData == PayloadUpTo(formData, 8);
    if formData.bioText != "" { apiData := apiData.(bioText := Some(formData.bioText)); }
    assert apiData == PayloadUpTo(formData, 9);
    if formData.bioLinks != "" { apiData := apiData.(bioLinks := Some(formData.bioLinks)); }
    assert apiData == PayloadUpTo(formData, 10);
    if formData.dmActivity != "" { apiData := apiData.(dmActivity := Some(formData.dmActivity)); }
  }


  /**
   * Per property: `username` is present (even when empty) and copied verbatim;
   * every other property is present exactly when its text is non-empty, with
   * value `parseInt` of the text for the four counts, `true` for `verified`
   * exactly when the text is "yes", and the text verbatim for the rest.
   */
  lemma EncodingRules(form: FormData, f: Field)
    ensures f == Username ==> Encoded(form, f) == Some(Text(form.username))
    ensures f != Username ==> (Encoded(form, f).Some? <==> Get(form, f) != "")
    ensures Encoded(form, f).Some? && IsNumeric(f) ==> Encoded(form, f).value == Number(ParseInt(Get(form, f)))
    ensures Encoded(form, f).Some? && f == Verified ==> Encoded(form, f).value == Flag(form.verified == "yes")
    ensures Encoded(form, f).Some? && f in {Visibility, HasProfilePic, BioText, BioLinks, DmActivity} ==>
      Encoded(form, f).value == Text(Get(form, f))
  {
  }

  /** `verified` is sent as `true` only for "yes"; "no" and any other non-empty text send `false`. */
  lemma VerifiedIsTrueOnlyForYes(form: FormData)
    requires form.verified != ""
    ensures Encoded(form, Verified) == Some(Flag(true)) <==> form.verified == "yes"
    ensures Encoded(form, Verified) == Some(Flag(false)) <==> form.verified != "yes"
  {
  }

  /**
   * A change event alters only the property of the control that raised it: with
   * empty text (an emptied control, or the options "Unknown", "Select", "None" and
   * "Normal") the key is dropped, exactly as if the control had never been
   * touched; with non-empty text it becomes the text's encoding.
   */
  lemma ChangeAffectsOneEntry(form: FormData, target: Field, value: string, f: Field)
    ensures Encoded(HandleChange(form, target, value), f) ==
      if f != target then Encoded(form, f)
      else if target != Username && value == "" then None
      else Some(EncodeValue(target, value))
  {
  }

  /** The property names are distinct, so the posted object has one key per field sent. */
  lemma NamesDistinct(f: Field, g: Field)
    ensures Name(f) == Name(g) <==> f == g
  {
  }

  /** `NamesDistinct` for all pairs at once, which makes the keys of `Properties` well defined. */
  lemma NamesInjective()
    ensures forall f, g :: Name(f) == Name(g) ==> f == g
  {
    forall f, g ensures Name(f) == Name(g) ==> f == g {
      NamesDistinct(f, g);
    }
  }

  /**
   * The payload `handleSubmit` would build from the initial state: the (empty)
   * username and nothing else. The page never posts it, since the `required`
   * username control blocks the submit event while it is empty.
   */
  lemma InitialPayload(f: Field)
    ensures Encoded(InitialForm, f) == if f == Username then Some(Text("")) else None
  {
  }

}
