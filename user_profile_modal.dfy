/** The "Edit Profile" modal: a two-field form (username and avatar URL) seeded from the
    optional initial data, with remove, cancel and submit. Closing is the parent's `onClose`,
    modelled as clearing `isOpen`. Reading an uploaded image is the browser's job: the upload
    handler receives the data URL it produced, or nothing when no file was chosen. */
module UserProfileModal {
  import opened Wrappers
  import opened Records

  /** `Partial<UserProfileData>`: either field may be missing. */
  datatype InitialData = InitialData(username: Option<string>, avatarUrl: Option<string>)

  /** The form; a null avatar URL is `None`. */
  datatype FormData = FormData(username: string, avatarUrl: Option<string>)

  /** `{ username: initialData.username || "", avatarUrl: initialData.avatarUrl || null }`. */
  function InitialForm(d: InitialData): (f: FormData)
    ensures f.username == OrElse(d.username, "")
    ensures Truthy(d.avatarUrl) ==> f.avatarUrl == d.avatarUrl
    ensures !Truthy(d.avatarUrl) ==> f.avatarUrl.None?
    ensures f.avatarUrl.Some? ==> f.avatarUrl.value != []
  {
    FormData(OrElse(d.username, ""), if Truthy(d.avatarUrl) then d.avatarUrl else None)
  }

  /** A form whose avatar URL is null or non-empty is exactly what it would be initialised to
      from its own values. */
  lemma InitialFormRoundTrip(f: FormData)
    requires f.avatarUrl.None? || f.avatarUrl.value != []
    ensures InitialForm(InitialData(Some(f.username), f.avatarUrl)) == f
  {
  }

  /** The input that changed, by its `name` attribute. */
  datatype Field = UsernameField | AvatarUrlField

  /** `{ ...prev, [name]: value }`: the named field takes the typed value, the other one stays.
      The avatar field stores the text even when it is empty (it does not go back to null). */
  function WithField(f: FormData, field: Field, value: string): (r: FormData)
    ensures field.UsernameField? ==> r.username == value && r.avatarUrl == f.avatarUrl
    ensures field.AvatarUrlField? ==> r.avatarUrl == Some(value) && r.username == f.username
  {
    match field
    case UsernameField => f.(username := value)
    case AvatarUrlField => f.(avatarUrl := Some(value))
  }

  /** What an open modal shows: the preview image (when the avatar URL is truthy), the Remove
      button (likewise), and the two inputs' values. */
  datatype ModalView = Hidden | Form(preview: Option<string>, showRemove: bool, usernameValue: string,
                                      avatarValue: string)

  function Render(isOpen: bool, f: FormData): (v: ModalView)
    ensures v.Hidden? <==> !isOpen
    ensures v.Form? ==> (v.showRemove <==> Truthy(f.avatarUrl)) && (v.preview.Some? <==> v.showRemove)
    ensures v.Form? && v.preview.Some? ==> v.preview == f.avatarUrl
    ensures v.Form? ==> v.usernameValue == f.username && v.avatarValue == OrElse(f.avatarUrl, "")
  {
    if !isOpen then Hidden
    else Form(if Truthy(f.avatarUrl) then f.avatarUrl else None, Truthy(f.avatarUrl), f.username,
              OrElse(f.avatarUrl, ""))
  }

  /** Typing into the avatar field and then clearing it hides the Remove button, although the
      stored value is the empty string rather than null. */
  lemma ClearedAvatarFieldHidesRemove(f: FormData, typed: string)
    ensures var g := WithField(WithField(f, AvatarUrlField, typed), AvatarUrlField, "");
            g.avatarUrl == Some("") && g.username == f.username && !Render(true, g).showRemove
  {
  }

  /** The initial data the form is seeded from: the prop, or the default `{}`. */
  function Seed(prop: Option<InitialData>): InitialData {
    prop.GetOr(InitialData(None, None))
  }

  /** The form once the render that follows a state change has run its effects. With the prop
      given, the effect depends on the same object and does not run. With the prop omitted, the
      default `{}` is a new object on every render, so the effect runs again and resets the form
      to blank fields. */
  function AfterRender(prop: Option<InitialData>, f: FormData): (r: FormData)
    ensures prop.Some? ==> r == f
    ensures prop.None? ==> r == FormData("", None)
  {
    if prop.Some? then f else InitialForm(Seed(prop))
  }

  /** Without the prop nothing typed, uploaded or removed survives: an open modal keeps showing
      two empty inputs and neither preview nor Remove. */
  lemma OmittedPropShowsBlankForm(f: FormData, field: Field, value: string, dataUrl: string)
    ensures Render(true, AfterRender(None, WithField(f, field, value))) == Form(None, false, "", "")
    ensures Render(true, AfterRender(None, f.(avatarUrl := Some(dataUrl)))) == Form(None, false, "", "")
  {
  }

  class ProfileModal {
    var isOpen: bool
    /** The `initialData` prop, `None` when the parent leaves it out. */
    var prop: Option<InitialData>
    var form: FormData

    /** Mounting runs the initialisation effect. */
    constructor (open: bool, d: Option<InitialData>)
      ensures isOpen == open && prop == d && form == InitialForm(Seed(d))
    {
      isOpen := open;
      prop := d;
      form := InitialForm(Seed(d));
    }

    /** A new `initialData` object from the parent re-runs the initialisation effect, discarding
        the edits. */
    method SetInitialData(d: InitialData)
      modifies this
      ensures prop == Some(d) && form == InitialForm(d) && isOpen == old(isOpen)
    {
      prop := Some(d);
      form := InitialForm(d);
    }

    method InputChange(field: Field, value: string)
      modifies this
      ensures form == AfterRender(prop, WithField(old(form), field, value))
      ensures isOpen == old(isOpen) && prop == old(prop)
    {
      form := AfterRender(prop, WithField(form, field, value));
    }

    /** The upload handler: no file chosen does nothing, otherwise the image's data URL becomes
        the avatar URL. */
    method UploadImage(dataUrl: Option<string>)
      modifies this
      ensures dataUrl.None? ==> form == old(form)
      ensures dataUrl.Some? ==> form == AfterRender(prop, old(form).(avatarUrl := dataUrl))
      ensures isOpen == old(isOpen) && prop == old(prop)
    {
      if dataUrl.Some? {
        form := AfterRender(prop, form.(avatarUrl := dataUrl));
      }
    }

    /** Remove sets the avatar URL to null and keeps the username; the button then disappears. */
    method RemoveAvatar()
      modifies this
      ensures form == AfterRender(prop, FormData(old(form).username, None))
      ensures !isOpen || !Render(isOpen, form).showRemove
      ensures isOpen == old(isOpen) && prop == old(prop)
    {
      form := AfterRender(prop, form.(avatarUrl := None));
    }

    /** Cancel restores the initial values, whatever was edited, and closes. */
    method Cancel()
      modifies this
      ensures form == InitialForm(Seed(prop)) && !isOpen && prop == old(prop)
      ensures Render(isOpen, form).Hidden?
    {
      form := AfterRender(prop, InitialForm(Seed(prop)));
      isOpen := false;
    }

    /** Submit (and the close button) only close: with the prop given the edited values stay. */
    method Submit()
      modifies this
      ensures form == AfterRender(prop, old(form)) && !isOpen && prop == old(prop)
    {
      form := AfterRender(prop, form);
      isOpen := false;
    }
  }
}
