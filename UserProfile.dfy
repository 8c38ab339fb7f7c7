/**
 * The header's profile menu: the initials badge, the dropdown with the profile's name, and an
 * edit form that mirrors the profile and is saved through the profile hook.
 */
module UserProfile {
  import opened Wrappers
  import opened Strings

  /** The signed-in user's profile as the profile hook supplies it. */
  datatype Profile = Profile(first_name: Option<string>, last_name: Option<string>, email: string)

  /** The edit form's three fields. */
  datatype EditForm = EditForm(first_name: string, last_name: string, email: string)

  const EmptyForm: EditForm := EditForm("", "", "")
  const YourProfile: string := "Your Profile"

  /** A nullable name as a form field (`x || ''`). */
  function OrEmpty(s: Option<string>): (r: string)
    ensures Truthy(s) ==> r == s.value
    ensures !Truthy(s) ==> r == ""
  {
    if s.Some? then s.value else ""
  }

  /**
   * The initials: none without a profile; with both names their first letters; with only a
   * first name its first letter; otherwise the email's first character; uppercased.
   * The result is None when that email is empty: the source then calls `toUpperCase` on `undefined`.
   */
  function Initials(profile: Option<Profile>): (r: Option<string>)
    ensures profile.None? ==> r == Some("")
    ensures profile.Some? && Truthy(profile.value.first_name) && Truthy(profile.value.last_name) ==>
      r == Some([UpperChar(profile.value.first_name.value[0]), UpperChar(profile.value.last_name.value[0])])
    ensures profile.Some? && Truthy(profile.value.first_name) && !Truthy(profile.value.last_name) ==>
      r == Some([UpperChar(profile.value.first_name.value[0])])
    ensures profile.Some? && !Truthy(profile.value.first_name) && profile.value.email != [] ==>
      r == Some([UpperChar(profile.value.email[0])])
    ensures r.None? <==> profile.Some? && !Truthy(profile.value.first_name) && profile.value.email == []
  {
    match profile
    case None => Some("")
    case Some(p) =>
      if Truthy(p.first_name) && Truthy(p.last_name) then
        var u := ToUpper([p.first_name.value[0], p.last_name.value[0]]);
        assert u == [UpperChar(p.first_name.value[0]), UpperChar(p.last_name.value[0])];
        Some(u)
      else if Truthy(p.first_name) then
        var u := ToUpper([p.first_name.value[0]]);
        assert u == [UpperChar(p.first_name.value[0])];
        Some(u)
      else if p.email != [] then
        var u := ToUpper([p.email[0]]);
        assert u == [UpperChar(p.email[0])];
        Some(u)
      else None
  }

  /** A profile with a last name and no first name still shows the email's initial: the last name alone is never used. */
  lemma LastNameAloneIgnored(p: Profile)
    requires !Truthy(p.first_name) && Truthy(p.last_name) && p.email != []
    ensures Initials(Some(p)) == Some([UpperChar(p.email[0])])
  {
  }

  /** The form for a profile: its names with null as empty, and its email. */
  function FormOf(p: Profile): (f: EditForm)
    ensures f.first_name == OrEmpty(p.first_name) && f.last_name == OrEmpty(p.last_name) && f.email == p.email
  {
    EditForm(OrEmpty(p.first_name), OrEmpty(p.last_name), p.email)
  }

  /** The dropdown's heading: the first name and the last name (or nothing) when there is a first name. */
  function HeaderName(profile: Option<Profile>): (r: string)
    ensures profile.Some? && Truthy(profile.value.first_name) ==>
      r == profile.value.first_name.value + " " + OrEmpty(profile.value.last_name)
    ensures !(profile.Some? && Truthy(profile.value.first_name)) ==> r == YourProfile
  {
    if profile.Some? && Truthy(profile.value.first_name) then
      profile.value.first_name.value + " " + OrEmpty(profile.value.last_name)
    else YourProfile
  }

  /** The menu's state. */
  class ProfileMenuState {
    var showDropdown: bool
    var isEditing: bool
    var editForm: EditForm

    constructor ()
      ensures !showDropdown && !isEditing && editForm == EmptyForm
    {
      showDropdown := false;
      isEditing := false;
      editForm := EmptyForm;
    }

    /** A new profile from the hook refills the form; no profile leaves it. */
    method SyncFromProfile(profile: Option<Profile>)
      modifies this`editForm
      ensures editForm == if profile.Some? then FormOf(profile.value) else old(editForm)
    {
      if profile.Some? {
        editForm := FormOf(profile.value);
      }
    }

    /** The badge button. */
    method ToggleDropdown()
      modifies this`showDropdown
      ensures showDropdown == !old(showDropdown)
    {
      showDropdown := !showDropdown;
    }

    /** A mouse-down outside the menu closes it and ends editing. */
    method ClickOutside()
      modifies this`showDropdown, this`isEditing
      ensures !showDropdown && !isEditing
    {
      showDropdown := false;
      isEditing := false;
    }

    /** The settings button. */
    method StartEditing()
      modifies this`isEditing
      ensures isEditing
    {
      isEditing := true;
    }

    method EditFields(f: EditForm)
      modifies this`editForm
      ensures editForm == f
    {
      editForm := f;
    }

    /** Cancel leaves edit mode and, with a profile, restores the form from it. */
    method Cancel(profile: Option<Profile>)
      modifies this`isEditing, this`editForm
      ensures !isEditing
      ensures editForm == if profile.Some? then FormOf(profile.value) else old(editForm)
    {
      isEditing := false;
      if profile.Some? {
        editForm := FormOf(profile.value);
      }
    }

    /** Saving sends the form as it is; success leaves edit mode, a failure stays in it. */
    method UpdateProfile(outcome: Outcome<()>) returns (sent: EditForm)
      modifies this`isEditing
      ensures sent == editForm
      ensures isEditing == (if outcome.Ok? then false else old(isEditing))
    {
      sent := editForm;
      if outcome.Ok? {
        isEditing := false;
      }
    }
  }
}
